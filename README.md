# A verified model of the hike-site content core

The site is an Astro blog of hikes, books, waypoints and writings. This
project models its deterministic core in Dafny and proves what that core
promises:

- the GPX transformer that turns a hike's track into statistics and a map;
- the global statistics command, whose `parseTime` reads back what
  `formatDuration` writes;
- the content configuration: the entry comparator, the transformer
  pipelines, the books transformer and the front-matter validators;
- the content sanitizer and the sitemap;
- the status and collection filters and the navigation helpers;
- the Stimulus controllers of the content grid, the command palette, the
  gallery and the content tabs, and the analytics orchestrator.

Pure code is modelled as functions and lemmas. Each controller and the
analytics orchestrator is a class whose methods update its fields.
Numbers are exact `real`s and unbounded integers. Timestamps are integer
milliseconds. Strings are `seq<char>`. Trigonometry, logarithms and
number formatting are function values passed in. The file system, the
network, the DOM and timers become parameters, or are left out.

Modules: `Common` (Option and Result), `Text` (digits, JavaScript white
space, trim, split and join, `parseInt`), `Seqs` (filtering, counting and
summing), `Frontmatter` (parsed front matter and content), `Paths`,
`GpxStats`, `GpxMap`, `GpxTransformer`, `GlobalStats`, `ContentGrid`,
`AtlasConfig`, `CommandPalette`, `Gallery`, `Analytics`, `FilterConfig`,
`StatusFilter`, `CollectionFilter`, `Navigation`, `ContentConfig`,
`ContentTabs`, `SanitizeContent` and `Sitemap`.

## Model

| member | source | states |
|---|---|---|
| GpxStats.Smooth | src/lib/zendo/transformers/extractDataFromGPX.ts:77-85 | the smoothed profile has one sample per point |
| GpxStats.WindowMean | src/lib/zendo/transformers/extractDataFromGPX.ts:82-83 | the mean of the samples in [lo, hi): their left-to-right sum over the window's length; its bounds are stated by WindowMeanBounds |
| GpxStats.WindowMeanBounds | src/lib/zendo/transformers/extractDataFromGPX.ts:82-83 | the mean of a window lies between any lower and upper bound of its samples |
| GpxStats.SmoothWithinRange | src/lib/zendo/transformers/extractDataFromGPX.ts:77-85 | every smoothed sample lies within any bounds of the raw elevations |
| GpxStats.SmoothConstant | src/lib/zendo/transformers/extractDataFromGPX.ts:77-85 | a flat profile is left unchanged by smoothing |
| GpxStats.DeadBandStepLaws | src/lib/zendo/transformers/extractDataFromGPX.ts:118-127 | one segment keeps the pending change within ±2 m and never decreases gain or loss; gain − loss + pending grows by exactly the segment's change; gain grows only by a flush above +2 m, loss only by a flush below −2 m |
| GpxStats.DeadBandInvariant | src/lib/zendo/transformers/extractDataFromGPX.ts:104-127 | after any prefix of segments the pending change is within ±2 m, gain and loss are ≥ 0, and gain − loss + pending equals the smoothed last sample minus the first |
| GpxStats.DeadBandMonotone | src/lib/zendo/transformers/extractDataFromGPX.ts:121-127 | gain and loss never decrease along the track |
| GpxStats.DeadBandAbsorbsNoise | src/lib/zendo/transformers/extractDataFromGPX.ts:119-127 | a profile that stays within ±2 m of its start records no gain and no loss |
| GpxStats.PositiveTime | src/lib/zendo/transformers/extractDataFromGPX.ts:133-134 | the sum of the positive time steps is never negative |
| GpxStats.MovingTime | src/lib/zendo/transformers/extractDataFromGPX.ts:133-141 | moving time lies between 0 and the sum of the positive time steps |
| GpxStats.RunningExtrema | src/lib/zendo/transformers/extractDataFromGPX.ts:94-131 | the running minimum and maximum are the minimum and maximum of the raw elevations seen so far |
| GpxStats.ScanSegments | src/lib/zendo/transformers/extractDataFromGPX.ts:88-142 | the segment loop computes distance, dead-band state, raw extremes and moving time, each equal to its whole-track definition |
| GpxStats.TrailOf | src/lib/zendo/transformers/extractDataFromGPX.ts:150-156 | the trail is a loop iff the ends are less than 0.5 km apart or less than 5% of the distance apart |
| GpxStats.TrackStats | src/lib/zendo/transformers/extractDataFromGPX.ts:87-158 | gain and loss ≥ 0; pending within ±2 m; the telescoping identity; min and max are the raw extremes with min ≤ max; 0 ≤ moving time ≤ positive time; and the loop test |
| GpxStats.CalculateStats | src/lib/zendo/transformers/extractDataFromGPX.ts:87-158 | an empty track fails with "No track points" and never yields statistics; otherwise the result is the whole-track statistics |
| GpxStats.Round | src/lib/zendo/transformers/extractDataFromGPX.ts:162-165 | `Math.round` gives the integer within half of x, halves rounded up |
| GpxStats.RoundMonotone | src/lib/zendo/transformers/extractDataFromGPX.ts:164-165 | rounding keeps the order of min and max elevation |
| GpxStats.FormatDuration | src/lib/zendo/transformers/extractDataFromGPX.ts:46-52 | "N/A" exactly for a non-positive duration; otherwise the whole hours and the remaining minutes, which are below 60 |
| GpxStats.Report | src/lib/zendo/transformers/extractDataFromGPX.ts:160-169 | non-negative gain and loss stay non-negative after rounding; rounded min ≤ rounded max; the type is "Loop" iff the trail is a loop; moving time is "N/A" iff it is not positive |
| GpxMap.MinZoomOf | src/lib/zendo/transformers/extractDataFromGPX.ts:232 | `Math.min` of two zoom candidates: NaN if either is NaN, +Infinity only if both are, otherwise at most each finite candidate |
| GpxMap.ClampZoom | src/lib/zendo/transformers/extractDataFromGPX.ts:235 | clamping gives a level in [1, 18] unless the zoom is NaN; a level already in range is kept; any other level goes to the nearer bound |
| GpxMap.BoundsOf | src/lib/zendo/transformers/extractDataFromGPX.ts:209-214 | the bounds are the minimum and maximum latitude and longitude of the track, so min ≤ max |
| GpxMap.FinalZoom | src/lib/zendo/transformers/extractDataFromGPX.ts:216-235 | for a real track, whose Mercator y decreases with latitude, the final zoom is a level in [1, 18] |
| GpxMap.ViewportOf | src/lib/zendo/transformers/extractDataFromGPX.ts:250-262 | the viewport keeps the 600:400 aspect ratio, is centred on the track, and its scale fits the track in 80% of each side |
| GpxMap.ViewportContainsTrack | src/lib/zendo/transformers/extractDataFromGPX.ts:253-262 | the track's pixel box lies inside the viewport with a margin of a tenth of each side |
| GpxMap.PixelBoxOrdered | src/lib/zendo/transformers/extractDataFromGPX.ts:242-245 | the track's pixel box has min ≤ max on both axes |
| GpxMap.TileRangeOf | src/lib/zendo/transformers/extractDataFromGPX.ts:264-268 | for a viewport of non-negative size the tile range is ordered, and on both axes it covers the viewport from its first to its last pixel |
| GpxMap.TileAt | src/lib/zendo/transformers/extractDataFromGPX.ts:279-287 | a tile adds at most one image |
| GpxMap.Column | src/lib/zendo/transformers/extractDataFromGPX.ts:278-288 | a column of tiles adds at most one image per row |
| GpxMap.GridBound | src/lib/zendo/transformers/extractDataFromGPX.ts:277-289 | the tile loops add at most one image per tile of the range |
| GpxMap.FetchTiles | src/lib/zendo/transformers/extractDataFromGPX.ts:271-290 | the nested loops collect exactly the fetched tiles of the range, none at all when the range has more than 50 tiles, so never more than 50 |
| GpxMap.FetchColumn | src/lib/zendo/transformers/extractDataFromGPX.ts:278-288 | the inner loop collects exactly the fetched tiles of one column, top to bottom |
| GpxMap.PathCommands | src/lib/zendo/transformers/extractDataFromGPX.ts:300-308 | one command per point, on that point: "M" for the first and "L" for every later one |
| GpxMap.PathDataStart | src/lib/zendo/transformers/extractDataFromGPX.ts:303 | the path data of a non-empty track starts with "M " |
| GpxMap.PathDataRendersCommands | src/lib/zendo/transformers/extractDataFromGPX.ts:300-308 | the path string is the rendering of the move-then-line commands |
| GpxMap.BuildPath | src/lib/zendo/transformers/extractDataFromGPX.ts:300-308 | the loop builds the path data: empty iff there are no points, otherwise starting with "M " |
| GpxMap.SvgDocument | src/lib/zendo/transformers/extractDataFromGPX.ts:313-326 | the map is an `<svg width="600" height="400" viewBox="` element closed by `</svg>` |
| GpxMap.MapOf | src/lib/zendo/transformers/extractDataFromGPX.ts:205-308 | the map's zoom is the clamped zoom in [1, 18]; no tiles when the range exceeds 50 tiles; at most 50 tiles; the path starts with "M " |
| GpxMap.GenerateMap | src/lib/zendo/transformers/extractDataFromGPX.ts:205-327 | the generated SVG is the document of the map drawing |
| GpxTransformer.Injections | src/lib/zendo/transformers/extractDataFromGPX.ts:368-377 | nine front-matter keys are injected |
| GpxTransformer.InjectionsUnique | src/lib/zendo/transformers/extractDataFromGPX.ts:368-377 | the injected keys are distinct |
| GpxTransformer.GpxPath | src/lib/zendo/transformers/extractDataFromGPX.ts:332-336 | the track looked for is the file named after the entry's stem with the extension .gpx |
| GpxTransformer.InjectStats | src/lib/zendo/transformers/extractDataFromGPX.ts:365-379 | after injection every injected key holds its statistic and every other key keeps its value |
| GpxTransformer.ExtractDataFromGpx | src/lib/zendo/transformers/extractDataFromGPX.ts:329-385 | a missing GPX file fails with the source's message; an empty track returns the entry unchanged with no map; otherwise the entry keeps its path and body, gets the statistics injected, and the map file is written |
| GlobalStats.DigitRunEnd | src/lib/zendo/cli/commands/saveGlobalStats.ts:52-53 | the end of the run of digits that starts at i |
| GlobalStats.FirstMatchFrom | src/lib/zendo/cli/commands/saveGlobalStats.ts:52-53 | the first position from i where "<digits><unit>" matches, or -1 exactly when there is none |
| GlobalStats.Capture | src/lib/zendo/cli/commands/saveGlobalStats.ts:52-56 | a captured group is a non-empty run of digits |
| GlobalStats.AllOf | src/lib/zendo/cli/commands/saveGlobalStats.ts:76-90 | `Promise.all`: it fails iff one element fails; otherwise it has one result per element, in order |
| GlobalStats.UnitValue | src/lib/zendo/cli/commands/saveGlobalStats.ts:55-56 | no match gives 0; otherwise the captured digit run read as a decimal number |
| GlobalStats.ParseTimeString | src/lib/zendo/cli/commands/saveGlobalStats.ts:50-59 | "" gives 0; otherwise 60 × the number in the first "<digits>h" plus the number in the first "<digits>m", each 0 when absent; with fewer than 60 minutes, the hours and minutes read back as the result's quotient and remainder by 60 (the inverse of TimeString) |
| GlobalStats.ParseTime | src/lib/zendo/cli/commands/saveGlobalStats.ts:50-59 | a falsy value gives 0; a truthy value that is not a string fails, as `timeStr.match` does; a string is parsed |
| GlobalStats.ParseTimeWithoutDigits | src/lib/zendo/cli/commands/saveGlobalStats.ts:50-59 | a missing value, or a string with no digit at all such as "N/A", parses to 0 |
| GlobalStats.CaptureHours | src/lib/zendo/cli/commands/saveGlobalStats.ts:52 | the hours group of "<a>h <b>m" is a |
| GlobalStats.CaptureMinutes | src/lib/zendo/cli/commands/saveGlobalStats.ts:53 | the minutes group of "<a>h <b>m" is b, not a digit run of the hours |
| GlobalStats.HoursMinutesValues | src/lib/zendo/cli/commands/saveGlobalStats.ts:55-56 | in "<a>h <b>m" the hours read back as a and the minutes as b |
| GlobalStats.ParseTimeOfHoursMinutes | src/lib/zendo/cli/commands/saveGlobalStats.ts:50-59 | "<a>h <b>m" parses to a·60 + b minutes |
| GlobalStats.ParseFormattedDuration | src/lib/zendo/cli/commands/saveGlobalStats.ts:50-59 | reading back a formatted duration gives its whole minutes, and 0 for "N/A" |
| GlobalStats.TimeString | src/lib/zendo/cli/commands/saveGlobalStats.ts:106 | the time string's hours are total/60 and its minutes total mod 60, below 60; it parses back to the total |
| GlobalStats.HikeOf | src/lib/zendo/cli/commands/saveGlobalStats.ts:78-88 | a hike fails exactly when its moving time is truthy but not a string (`parseTime` throws); otherwise slept holds only for the boolean true, the slug has no '/', and the moving time is the parsed one |
| GlobalStats.HikesOf | src/lib/zendo/cli/commands/saveGlobalStats.ts:76-90 | the hike list fails iff one file fails; otherwise it has one hike per file, in file order |
| GlobalStats.SortByDateDesc | src/lib/zendo/cli/commands/saveGlobalStats.ts:93 | sorting in place leaves the hikes by date, latest first, and permutes them |
| GlobalStats.InsertIntoSorted | src/lib/zendo/cli/commands/saveGlobalStats.ts:93 | one insertion step extends the sorted prefix by one and permutes the array |
| GlobalStats.MinutesNonNegative | src/lib/zendo/cli/commands/saveGlobalStats.ts:100 | the total moving minutes are never negative |
| GlobalStats.Totals | src/lib/zendo/cli/commands/saveGlobalStats.ts:95-107 | the total is the number of hikes; the time string parses back to the summed moving minutes; distance ends in " km" and elevation in " m" |
| GlobalStats.TotalsPermutation | src/lib/zendo/cli/commands/saveGlobalStats.ts:93-106 | the totals and the count of slept nights do not depend on the order of the hikes |
| GlobalStats.Summary | src/lib/zendo/cli/commands/saveGlobalStats.ts:95-119 | slept nights are at least 3 and at most the number of hikes plus 3; the total is the number of hikes; the latest hike is null iff there are none |
| GlobalStats.GetHikeStats | src/lib/zendo/cli/commands/saveGlobalStats.ts:71-120 | slept nights are the hikes slept in plus 3; the totals are those of all hikes; the latest hike is null iff there are none, and otherwise is one with the greatest date |
| GlobalStats.LatestIsGreatest | src/lib/zendo/cli/commands/saveGlobalStats.ts:93-95 | the first hike after sorting has the greatest date of all |
| GlobalStats.HighlightCountAppend | src/lib/zendo/cli/commands/saveGlobalStats.ts:132 | highlights are counted line by line, so the count of two joined texts is the sum |
| GlobalStats.HighlightCount | src/lib/zendo/cli/commands/saveGlobalStats.ts:132 | at most one highlight per body line, and none iff no line, once trimmed, starts with "- " |
| GlobalStats.BookOf | src/lib/zendo/cli/commands/saveGlobalStats.ts:128-136 | a missing `completed` gives false, true gives true, "" gives false; the highlight count is 0 iff no body line is a highlight |
| GlobalStats.BookStatsOf | src/lib/zendo/cli/commands/saveGlobalStats.ts:141-146 | completed + reading = total = the number of books |
| GlobalStats.WaypointStatsOf | src/lib/zendo/cli/commands/saveGlobalStats.ts:164-174 | total is the number of waypoints; sketch + surveying + charted ≤ total, with equality iff every status is one of the three |
| ContentGrid.CalculateCardDimensions | src/controllers/content-grid.ts:208-236 | both spans are 1 or 2; the first card and every 11th are 2×2; otherwise a card is wide iff its position is a multiple of 3 and tall iff it is a multiple of 8 |
| ContentGrid.BentoExamples | src/controllers/content-grid.ts:196-207 | the 24th card is 2×2 (wide and tall rules together), the 12th wide, the 16th tall, the 2nd plain, the 22nd 2×2 |
| ContentGrid.Without | src/controllers/content-grid.ts:86 | the filtered list holds exactly the other entries, in their order |
| ContentGrid.SpecificFilterList | src/controllers/content-grid.ts:81-97 | checking a filter keeps exactly the other selected filters except "all", in their order, and appends the filter last; unchecking keeps exactly the other filters, in their order, falling back to ["all"] when nothing is left; the list is never empty |
| ContentGrid.FirstOfCategory | src/controllers/content-grid.ts:83 | the index of the first checkbox of the category, or -1 when there is none |
| ContentGrid.FirstOfCategorySame | src/controllers/content-grid.ts:83 | the lookup depends only on the checkboxes' categories, so changing their checked state does not move it |
| ContentGrid.MergeParams | src/controllers/content-grid.ts:142-152 | each of status, topics and collections is taken from the filters iff the filter is present without "all"; name and relatedTo are kept |
| ContentGrid.CardsOf | src/controllers/content-grid.ts:179-194 | one card per item, with the item's id and type and the bento dimension of its position |
| ContentGrid.FiltersAfter | src/controllers/content-grid.ts:53-97 | the filters after a checkbox change: only the checkbox's category changes; checking "all" sets it to ["all"]; unchecking "all" changes nothing; a checked filter is appended last to exactly the category's other filters except "all", in order; an unchecked one is removed and exactly the others are kept in order (or ["all"]); no category becomes empty |
| ContentGrid.ContentGridController.HandleAllFilter | src/controllers/content-grid.ts:72-79 | checking "all" sets the category to ["all"] and unchecks the category's other checkboxes; unchecking it re-checks that checkbox and changes nothing else |
| ContentGrid.ContentGridController.UncheckOtherCheckboxes | src/controllers/content-grid.ts:99-108 | exactly the checkboxes of the category that are not "all" are unchecked |
| ContentGrid.ContentGridController.HandleSpecificFilter | src/controllers/content-grid.ts:81-97 | the category's list becomes SpecificFilterList of its current list; the category's "all" checkbox is unchecked on check, re-checked when the list empties, untouched otherwise |
| ContentGrid.ContentGridController.UpdateCheckboxStates | src/controllers/content-grid.ts:110-129 | in each filtered category, every typed checkbox is checked iff "all" is not selected and its type is, and the first "all" checkbox of the category (the source's `find`) is checked iff "all" is selected; a further "all" checkbox of the same category is left as it was |
| ContentGrid.ContentGridController.SyncCategory | src/controllers/content-grid.ts:111-128 | one step of the loop over categories: the category's checkboxes are synchronised and the others keep their state |
| ContentGrid.ContentGridController.SyncAllCheckbox | src/controllers/content-grid.ts:112-118 | the first "all" checkbox of the category is checked iff "all" is selected |
| ContentGrid.ContentGridController.SyncFilterCheckboxes | src/controllers/content-grid.ts:120-127 | each non-"all" checkbox of the category with a filter type is checked iff "all" is not selected and its type is |
| ContentGrid.ContentGridController.PerformSearch | src/controllers/content-grid.ts:131-138 | while a search is in flight nothing happens; otherwise the grid shows the loading view and the request is the search parameters merged with the filters |
| ContentGrid.ContentGridController.FinishSearch | src/controllers/content-grid.ts:155-176 | an error shows the error view, no items the empty view, items their cards; loading ends in every case |
| ContentGrid.ContentGridController.RenderCards | src/controllers/content-grid.ts:179-194 | the grid holds exactly the cards of the items |
| ContentGrid.ContentGridController.UpdateFilter | src/controllers/content-grid.ts:53-70 | a checkbox without a filter type or category changes nothing; otherwise the filters become FiltersAfter, each checkbox is the synchronised form of its state after the handler (HandledBoxes, HandledAllBoxes), loading is on, and the loading view and the merged request appear unless a search was in flight, in which case view and request stay as they were |
| ContentGrid.ContentGridController.Connect | src/controllers/content-grid.ts:48-51 | the filters stay; every filter and "all" checkbox is synchronised with them; loading is on, and the loading view and the merged request appear unless a search was in flight, in which case the view stays |
| AtlasConfig.SortEntries | atlas.config.ts:43-72 | the comparator's result is -1, 0 or 1 |
| AtlasConfig.SortByUpdate | atlas.config.ts:68-71 | updates more than sixty minutes apart: the more recent one goes first |
| AtlasConfig.SortWithinWindow | atlas.config.ts:56-65 | within sixty minutes: the later creation goes first, and on equal creation the higher status priority |
| AtlasConfig.SortEntriesNeverZero | atlas.config.ts:58-71 | the comparator never answers 0 |
| AtlasConfig.SortEntriesTie | atlas.config.ts:58-65 | two entries tied on window, creation and priority both compare as 1, whichever comes first |
| AtlasConfig.SortEntriesNotAntisymmetric | atlas.config.ts:58-65 | two concrete notes, created together and updated a second apart, each sort after the other |
| AtlasConfig.SortEntriesConsistent | atlas.config.ts:58-65 | the comparator with ties answered as 0 differs from the written one only on those ties |
| AtlasConfig.SortEntriesAntisymmetricOtherwise | atlas.config.ts:43-72 | away from the tie, and for known statuses, swapping the entries negates the answer |
| AtlasConfig.SortEntriesConsistentAntisymmetric | atlas.config.ts:43-72 | the corrected comparator is antisymmetric for every pair of known statuses |
| AtlasConfig.PipelineOf | atlas.config.ts:81-210 | an entry type's pipeline is found iff the type is listed, and it is the listed type's transformers |
| AtlasConfig.PipelineOfFirst | atlas.config.ts:81-210 | the first listed type with the id gives the pipeline |
| AtlasConfig.HikesPipeline | atlas.config.ts:31-33 | hikes run the whole atlas pipeline and then extract the GPX data |
| AtlasConfig.BooksPipeline | atlas.config.ts:123-144 | books run the whole atlas pipeline and then the last-highlight transformer |
| AtlasConfig.AtlasPipelineShape | atlas.config.ts:21-31 | the atlas pipeline removes the first heading first, sanitizes last and does not read GPX tracks |
| AtlasConfig.UpdatedAtFromLastHighlight | atlas.config.ts:134-143 | binary content passes through; otherwise updatedAt becomes the ISO form of lastHighlightedOn and every other key and the body are kept; an invalid date fails |
| CommandPalette.Badge | src/controllers/command-palette.ts:156 | the badge is a rounded-pill span that ends with the icon, a space and the status |
| CommandPalette.GetStatusBadge | src/controllers/command-palette.ts:149-157 | the badge is empty iff the status is absent or not one of sketch, surveying, charted; otherwise it shows that status's icon and name |
| CommandPalette.GroupKeys | src/controllers/command-palette.ts:234-240 | the group keys are the groups' types, in order |
| CommandPalette.GroupIndex | src/controllers/command-palette.ts:238 | the position of the group of a type that has one |
| CommandPalette.OfType | src/controllers/command-palette.ts:234-240 | the items of one type are exactly the items with that type |
| CommandPalette.AddToGroupsShape | src/controllers/command-palette.ts:235-238 | adding an item opens a new last group for a new type and otherwise keeps the keys |
| CommandPalette.GroupByTypeKeys | src/controllers/command-palette.ts:234-240 | every item's type has a group, and the group keys are distinct |
| CommandPalette.GroupByType | src/controllers/command-palette.ts:234-240 | at most one group per item, none iff there are no items, and the first group is the first item's type |
| CommandPalette.GroupByTypeContents | src/controllers/command-palette.ts:234-240 | each group holds exactly the items of its type, in their order |
| CommandPalette.GroupByTypeOrder | src/controllers/command-palette.ts:234-240 | groups appear in the order their types first appear among the items |
| CommandPalette.FlattenAppendItem | src/controllers/command-palette.ts:238 | pushing an item into a group adds exactly that item to the groups' contents |
| CommandPalette.FlattenAppendGroup | src/controllers/command-palette.ts:236 | appending a group appends its items to the groups' contents |
| CommandPalette.GroupByTypePermutation | src/controllers/command-palette.ts:234-240 | the grouped list is a permutation of the fetched items |
| CommandPalette.LinksOf | src/controllers/command-palette.ts:257-302 | one link row per item |
| CommandPalette.LinkRows | src/controllers/command-palette.ts:247-303 | the rows kept are exactly the link rows |
| CommandPalette.LinkRowsAppend | src/controllers/command-palette.ts:247-303 | picking the links of two row lists is picking the links of each |
| CommandPalette.LinkRowsOfLinks | src/controllers/command-palette.ts:257-302 | the rows made for items are all links |
| CommandPalette.LinksOfAppend | src/controllers/command-palette.ts:257-302 | numbering continues across groups: the second group's links start where the first's end |
| CommandPalette.LinkRowsOfRows | src/controllers/command-palette.ts:244-303 | the link rows of the rendered groups are the links of the grouped items, numbered from 0 |
| CommandPalette.RenderedRows | src/controllers/command-palette.ts:232-308 | the results list is empty iff there are no items, and otherwise opens with the header of the first item's type |
| CommandPalette.RenderedLinks | src/controllers/command-palette.ts:232-303 | the i-th link carries data-index i, the URL and id of the i-th item in display order, and is highlighted iff i is the selected index |
| CommandPalette.EnterTarget | src/controllers/command-palette.ts:421-428 | Enter as written opens filteredItems[selectedIndex] in fetch order, when the index is in range |
| CommandPalette.HighlightedItem | src/controllers/command-palette.ts:421-428 | the item of the highlighted row, in display order; present iff the selected index is in range |
| CommandPalette.HighlightedItemIsShown | src/controllers/command-palette.ts:258-269 | the highlighted item's link carries the selected index, the highlight and the item's URL |
| CommandPalette.EnterOpensAnotherItem | src/controllers/command-palette.ts:421-428 | for a waypoint, a book and a second waypoint with the second row highlighted, the row shows the second waypoint but Enter opens the book |
| CommandPalette.Reselect | src/controllers/command-palette.ts:332-345 | a link row is highlighted iff its data-index is the selected index; group headers are untouched |
| CommandPalette.Highlighted | src/controllers/command-palette.ts:332-367 | the hint and loading line are untouched; in a list of rows every link row is highlighted iff its index is the selected index, and nothing else changes |
| CommandPalette.CommandPaletteController.Open | src/controllers/command-palette.ts:96-119 | the palette becomes visible; the search state is unchanged |
| CommandPalette.CommandPaletteController.UpdateResults | src/controllers/command-palette.ts:182-230 | an empty query clears the items and hides both lists; a query shorter than 3 UTF-16 code units shows the hint; a longer one shows the loading line and schedules a search for that query |
| CommandPalette.CommandPaletteController.Close | src/controllers/command-palette.ts:121-136 | the palette is hidden, the search box emptied and the results cleared |
| CommandPalette.CommandPaletteController.FireSearch | src/controllers/command-palette.ts:160-180 | the scheduled search runs: a failure gives no items; no items shows the no-results line; otherwise the rendered rows of the items; loading ends |
| CommandPalette.CommandPaletteController.RenderSearchResults | src/controllers/command-palette.ts:232-306 | the results become the rendered rows of the items with the current selection |
| CommandPalette.CommandPaletteController.HighlightSelected | src/controllers/command-palette.ts:332-367 | every link row is highlighted iff its index is the selected one; nothing else changes |
| CommandPalette.CommandPaletteController.HandleMouseEnter | src/controllers/command-palette.ts:324-328 | hovering a row selects its index and re-highlights |
| CommandPalette.CommandPaletteController.HandleSearchInput | src/controllers/command-palette.ts:390-395 | typing resets the selection to -1, stores the query and updates the results as UpdateResults does, with the whole new state given for each of the three query cases |
| CommandPalette.CommandPaletteController.HandleSearchKeydown | src/controllers/command-palette.ts:397-431 | ArrowDown moves to the next item, stopping at the last and starting at 0; ArrowUp moves back, stopping at 0; Enter opens the highlighted row's item (the corrected target of the first Findings row) and closes; Escape closes as Close does; every field is given in each case, and other keys change nothing |
| CommandPalette.CommandPaletteController.HandleGlobalKeydown | src/controllers/command-palette.ts:433-443 | Cmd-K or Ctrl-K opens a hidden palette, or closes an open one as Close does; every field is given, and other keys change nothing |
| CommandPalette.CommandPaletteController.HandleDocumentClick | src/controllers/command-palette.ts:376-388 | a click outside the dialog, on an element still in the document, closes an open palette as Close does; any other click changes no field |
| Gallery.JsRem | src/controllers/gallery.ts:46-51 | JavaScript's remainder: it has the sign of the dividend and a magnitude below the divisor |
| Gallery.NextIndex | src/controllers/gallery.ts:44-47 | from a valid index, the next one, wrapping from the last image to the first |
| Gallery.PrevIndex | src/controllers/gallery.ts:49-52 | from a valid index, the previous one, wrapping from the first image to the last |
| Gallery.NextPrevInverse | src/controllers/gallery.ts:44-52 | next and previous undo each other on every valid index |
| Gallery.NextTimesAdvances | src/controllers/gallery.ts:44-47 | k steps forward (k up to the number of images) land k places on, modulo the number of images |
| Gallery.NextRound | src/controllers/gallery.ts:44-47 | as many steps forward as there are images return to the start |
| Gallery.SwipeOf | src/controllers/gallery.ts:126-136 | a horizontal travel shorter than 50 pixels either way is no swipe; leftward travel of at least 50 is next, rightward previous |
| Gallery.GalleryController.constructor | src/controllers/gallery.ts:5-8 | the gallery starts at the given index with the modal closed and shows that index |
| Gallery.GalleryController.UpdateDisplay | src/controllers/gallery.ts:138-166 | for an index with an image: the main and fullscreen images (when present) show it, the counter shows the 1-based index, and exactly that thumbnail is highlighted; an index without an image changes nothing |
| Gallery.GalleryController.Next | src/controllers/gallery.ts:44-47 | no images: no change; otherwise the next index, displayed |
| Gallery.GalleryController.Prev | src/controllers/gallery.ts:49-52 | no images: no change; otherwise the previous index, displayed |
| Gallery.GalleryController.GoTo | src/controllers/gallery.ts:54-59 | a numeric index parameter becomes the index and is displayed; without one nothing changes |
| Gallery.GalleryController.OpenFullscreen | src/controllers/gallery.ts:61-74 | with a modal, it opens and shows the current image; without one nothing changes |
| Gallery.GalleryController.CloseFullscreen | src/controllers/gallery.ts:76-90 | with a modal, it closes; nothing else changes |
| Gallery.GalleryController.HandleKeydown | src/controllers/gallery.ts:92-109 | only while the modal is open: Escape closes it, ArrowLeft goes back, ArrowRight forward; any other key or state changes nothing |
| Gallery.GalleryController.HandleTouchStart | src/controllers/gallery.ts:111-116 | a touch records its x position as the start |
| Gallery.GalleryController.HandleTouchEnd | src/controllers/gallery.ts:118-124 | a touch end records its x position and handles the swipe |
| Gallery.GalleryController.HandleSwipe | src/controllers/gallery.ts:126-136 | a swipe of at least 50 pixels moves one image: leftward forward, rightward back |
| Analytics.SectionType | src/lib/analytics.ts:94-103 | each content section maps to its singular content type |
| Analytics.NonEmptyParts | src/lib/analytics.ts:353 | the kept path segments are the non-empty ones, in order |
| Analytics.SegmentsShape | src/lib/analytics.ts:353 | every path segment is non-empty and holds no slash |
| Analytics.ContentEvent | src/lib/analytics.ts:351-376 | no event iff the path has no segment or its first is not a content section; a second segment makes a content view of that id with the page title, a single one a list view with the card count |
| Analytics.SegmentsOfTwo | src/lib/analytics.ts:353 | "/a/b/" splits into exactly the segments a and b |
| Analytics.SegmentsOfOne | src/lib/analytics.ts:353 | "/a" splits into exactly the segment a |
| Analytics.DetailPageIsContentView | src/lib/analytics.ts:362-369 | a content detail page reports a content view of its id |
| Analytics.ListPageIsContentListView | src/lib/analytics.ts:370-374 | a section page reports a list view with the number of cards |
| Analytics.HomePageNoContentEvent | src/lib/analytics.ts:355 | the home page reports no content event |
| Analytics.MathRound | src/lib/analytics.ts:250 | Math.round: the nearest integer, halves rounded up |
| Analytics.ScrollPercent | src/lib/analytics.ts:243-250 | no percentage iff the page cannot scroll; otherwise the scrolled fraction times 100, rounded to the nearest integer |
| Analytics.CrossedUpToMembers | src/lib/analytics.ts:252-253 | the thresholds among the first k that are reached and not yet tracked |
| Analytics.Crossed | src/lib/analytics.ts:252-253 | the thresholds reported by one scroll are exactly those reached and not yet tracked |
| Analytics.DepthEventsAppend | src/lib/analytics.ts:256-260 | the scroll-depth events of two lists of thresholds are those of each, in order |
| Analytics.CrossedUpToNone | src/lib/analytics.ts:253 | once every reached threshold is tracked, nothing more is reported |
| Analytics.CrossedAgain | src/lib/analytics.ts:252-261 | the same scroll position, handled again, reports nothing new |
| Analytics.AnalyticsOrchestrator.constructor | src/lib/analytics.ts:106-112 | the orchestrator starts uninitialised with nothing registered, tracked or sent |
| Analytics.AnalyticsOrchestrator.TimersFor | src/lib/analytics.ts:280-296 | one timer per threshold of 10, 30, 60, 120 and 300 seconds, each for the page's path |
| Analytics.AnalyticsOrchestrator.Init | src/lib/analytics.ts:123-134 | the first call handles the page load and listens for page loads and for preparation; later calls change nothing |
| Analytics.AnalyticsOrchestrator.HandlePageLoad | src/lib/analytics.ts:166-174 | tracked depths are cleared, the page view and content event are sent, the scroll and click listeners and the five timers are registered |
| Analytics.AnalyticsOrchestrator.TrackContentEvents | src/lib/analytics.ts:351-376 | exactly the page's content event, if any, is sent |
| Analytics.AnalyticsOrchestrator.SetupTimeOnPageTracking | src/lib/analytics.ts:280-296 | the page's five timers are appended |
| Analytics.AnalyticsOrchestrator.Cleanup | src/lib/analytics.ts:176-182 | every listener and timer is dropped |
| Analytics.AnalyticsOrchestrator.OnPageLoad | src/lib/analytics.ts:130 | a page-load event handles the page once the listener is registered, and does nothing before |
| Analytics.AnalyticsOrchestrator.OnBeforePreparation | src/lib/analytics.ts:131 | a preparation event cleans up once the listener is registered, and does nothing before |
| Analytics.AnalyticsOrchestrator.HandleScroll | src/lib/analytics.ts:242-263 | a page that cannot scroll sends nothing; otherwise every threshold crossed for the first time is sent once, in order, and becomes tracked |
| Analytics.AnalyticsOrchestrator.ReportThresholds | src/lib/analytics.ts:252-262 | the loop over thresholds sends and tracks exactly the crossed, untracked ones |
| Analytics.AnalyticsOrchestrator.ReportDepth | src/lib/analytics.ts:254-260 | one threshold is tracked and its scroll-depth event sent |
| Analytics.AnalyticsOrchestrator.OnScroll | src/lib/analytics.ts:266-277 | a scroll reaches the handler iff the scroll listener is registered |
| Analytics.AnalyticsOrchestrator.OnTimer | src/lib/analytics.ts:285-292 | a timer sends its time-on-page event iff the page is visible, and it is no longer pending afterwards, so it fires once |
| Analytics.DepthsAtMostOnce | src/lib/analytics.ts:252-261 | on one page no scroll-depth threshold is sent twice, and every one sent is a threshold |
| FilterConfig.ItemIds | src/lib/filters/status.ts:9-13 | the ids of a filter's items, one per item, in order |
| StatusFilter.EntryFilter | src/lib/filters/status.ts:15-23 | no selection, an empty one or one holding "all" keeps every entry; otherwise exactly the entries whose status is selected are kept, each as often as before and in order |
| StatusFilter.EntryFilterMembers | src/lib/filters/status.ts:22 | with a real selection an entry is kept iff it is present and its status is selected |
| StatusFilter.StatusItemsArePriorities | src/lib/filters/status.ts:9-13 | the filter's items are exactly the statuses the comparator ranks, in order of priority |
| CollectionFilter.CollectionFilterFn | src/lib/filters/collection.ts:16-27 | no selection or an empty one keeps every entry type; otherwise exactly the types whose id is selected, in order |
| CollectionFilter.SelectingAllKeepsNothing | src/lib/filters/collection.ts:22-26 | a selection of just "all" is not special-cased: it keeps no entry type |
| CollectionFilter.SiteSelectingAllKeepsNothing | src/lib/filters/collection.ts:22-26 | on the site's own entry types, selecting "all" keeps none of them |
| CollectionFilter.CollectionItemsAreCollections | src/lib/filters/collection.ts:9-14 | every item the collection filter offers is a collection id |
| Navigation.StripSuffix | src/lib/navigation.ts:15-16 | a removed suffix was there, and text without it is untouched |
| Navigation.NormalizePath | src/lib/navigation.ts:14-19 | the result is never empty, "/" stays "/", and otherwise it is "/" or a prefix of the path |
| Navigation.CanonicalIsFixed | src/lib/navigation.ts:14-19 | a path is its own normal form iff it is "/" or non-empty without a trailing slash or trailing /index.html |
| Navigation.RootForms | src/lib/navigation.ts:14-19 | the empty path and /index.html both normalise to "/" |
| Navigation.TrailingSlashIgnored | src/lib/navigation.ts:15 | one trailing slash does not change the normal form |
| Navigation.IndexHtmlIgnored | src/lib/navigation.ts:16 | a trailing /index.html does not change the normal form |
| Navigation.Nodes | src/lib/navigation.ts:21-36 | an item's nodes start with the item itself |
| Navigation.NodesOfMembers | src/lib/navigation.ts:29-33 | the nodes of a list of items are those of some item of the list |
| Navigation.ActiveIffSomeNodeMatches | src/lib/navigation.ts:21-36 | an item is active iff its pattern or the pattern of some descendant matches the normalised path |
| Navigation.IsItemActive | src/lib/navigation.ts:21-27 | an item is active iff its pattern matches the normalised path or one of its children is active; an item without children is active iff its own pattern matches |
| Navigation.HeaderNavigation | src/lib/navigation.ts:38-40 | exactly the header items, each as often as in the navigation and in order |
| ContentConfig.UpperChar | src/content.config.ts:17-18 | the upper-case letter lowers back to the letter |
| ContentConfig.ParseDraft | src/content.config.ts:14-23 | a missing draft is false; a boolean is itself; a string is accepted iff it lowers to "true" or "false" and means that; anything else fails |
| ContentConfig.LowerEqualsIff | src/content.config.ts:17-18 | a string lowers to a lower-case word iff it has the word's length and each letter is the word's letter in either case |
| ContentConfig.DraftSpellings | src/content.config.ts:14-23 | "True" and "TRUE" are true, "false" false, "yes" is rejected |
| ContentConfig.WritingIssues | src/content.config.ts:76-108 | no issue iff linked exactly when a URL is present and exactly when a reading time is; a URL issue iff those disagree on the URL, and likewise for the reading time; each issue carries its message; the URL issue comes first |
| ContentConfig.ZeroReadingTimeIsMissing | src/content.config.ts:85 | a linked writing whose reading time is 0 is reported as missing its reading time |
| ContentConfig.HikeIssues | src/content.config.ts:120-122 | no issue iff count is an integer of at least 1, the difficulty one of Easy, Medium, Hard, and feedback an integer from 1 to 5 |
| ContentConfig.ValidFeedback | src/content.config.ts:120-122 | an accepted hike's feedback is one of 1 to 5 and its count a positive integer |
| ContentTabs.IndexFromURL | src/controllers/content-tabs.ts:77-90 | no parameter gives none; an index is given only for a parameter that parses to it and lies within the triggers; every such parameter gives one |
| ContentTabs.IndexFromURLRoundTrip | src/controllers/content-tabs.ts:77-104 | writing an index into the URL and reading it back gives the index |
| ContentTabs.IndexFromURLOutside | src/controllers/content-tabs.ts:85-87 | an index outside the triggers, read back, gives none |
| ContentTabs.ActiveIndex | src/controllers/content-tabs.ts:73-75 | the first trigger whose state is active, or -1 when none is |
| ContentTabs.ContentTabsController.constructor | src/controllers/content-tabs.ts:3-11 | the page as rendered: triggers, panels, URL and history as given, not yet listening |
| ContentTabs.ContentTabsController.ActivateTab | src/controllers/content-tabs.ts:47-71 | an index without a trigger or a trigger without a tab changes nothing; otherwise exactly the triggers of that tab become active and exactly its panels are shown |
| ContentTabs.ContentTabsController.Connect | src/controllers/content-tabs.ts:13-25 | a valid index in the URL activates its tab: exactly that tab's triggers become active and exactly its panels are shown (nothing changes when the trigger has no tab); otherwise triggers and panels are unchanged and the URL is replaced with the active index; the controller then listens for history changes |
| ContentTabs.ContentTabsController.Disconnect | src/controllers/content-tabs.ts:27-29 | the controller stops listening |
| ContentTabs.ContentTabsController.Switch | src/controllers/content-tabs.ts:31-40 | a trigger without a tab changes nothing; otherwise the index is pushed to the history, from which it reads back, and the tab is activated (its triggers get the active attributes and every other trigger the inactive ones, exactly its panels shown), while a trigger outside the list (index -1) leaves triggers and panels unchanged |
| ContentTabs.ContentTabsController.HandlePopState | src/controllers/content-tabs.ts:42-45 | the URL becomes the entry's; the tab of the URL's index, or the first tab, is activated: exactly its triggers active and exactly its panels shown; an index without a tab changes nothing |
| ContentTabs.ActivationShowsOneTab | src/controllers/content-tabs.ts:54-70 | after activation every active trigger and every shown panel belong to the same tab |
| Frontmatter.Keys | src/lib/zendo/transformers/extractDataFromGPX.ts:365 | the keys of the front matter, in order |
| Frontmatter.Get | src/lib/zendo/transformers/extractDataFromGPX.ts:365 | reading a key gives nothing iff the key is absent, and otherwise the value stored under it |
| Frontmatter.Set | src/lib/zendo/transformers/extractDataFromGPX.ts:368-377 | assigning a key keeps the key order and appends a new key at the end |
| Frontmatter.SetGetSame | atlas.config.ts:141 | after assigning a key, reading it gives the assigned value |
| Frontmatter.SetGetOther | atlas.config.ts:141 | assigning a key leaves every other key's value as it was |
| Frontmatter.SetUnique | src/lib/zendo/transformers/extractDataFromGPX.ts:368-377 | assignment keeps the keys distinct |
| Frontmatter.SetAllOther | src/lib/zendo/transformers/extractDataFromGPX.ts:368-377 | a run of assignments leaves every key it does not assign as it was |
| Frontmatter.SetAllGet | src/lib/zendo/transformers/extractDataFromGPX.ts:368-377 | after a run of assignments with distinct keys, each assigned key holds its value |
| Paths.LastIndexBelow | src/lib/zendo/transformers/extractDataFromGPX.ts:332-333 | the last position of the character before k, or -1 when there is none |
| Paths.LastIndexUnique | src/lib/zendo/transformers/extractDataFromGPX.ts:332-333 | any position satisfying that description is the one found |
| Paths.Basename | src/lib/zendo/transformers/extractDataFromGPX.ts:333 | the base name holds no slash and ends the path, either as the whole path or right after a slash |
| Paths.Dirname | src/lib/zendo/transformers/extractDataFromGPX.ts:332 | a path without a slash has the directory "."; otherwise the directory, a slash and the base name give back the path, or the directory is "/" and the path is "/" and the base name |
| Paths.Extname | src/lib/zendo/transformers/extractDataFromGPX.ts:333 | the extension is empty (always for the base name "..") or a dot-led suffix of the base name, shorter than it |
| Paths.ExtnameOfParent | src/lib/zendo/transformers/extractDataFromGPX.ts:333 | the base name ".." has no extension |
| Paths.Stem | src/lib/zendo/transformers/extractDataFromGPX.ts:333 | the stem followed by the extension is the base name |
| Paths.LastIndexOfAppend | src/lib/zendo/transformers/extractDataFromGPX.ts:333 | appending text without the character keeps its last position |
| Paths.BasenameOf | src/lib/zendo/transformers/extractDataFromGPX.ts:333 | the base name of dir/file is file |
| Paths.StemOfFile | src/lib/zendo/transformers/extractDataFromGPX.ts:333 | the stem of dir/name.ext is name, except for the base name ".." (name ".", empty extension), which has no extension |
| Paths.ExtOf | src/lib/zendo/transformers/extractDataFromGPX.ts:333 | in name.ext, with no dot in ext, the last dot is the one before ext |
| Paths.BasenameWithout | src/lib/zendo/transformers/extractDataFromGPX.ts:333 | the stripped base name holds no slash |
| SanitizeContent.Run | src/lib/zendo/transformers/sanitizeContent.ts:19 | the longest prefix whose characters all satisfy the class, as a greedy \s+ or \d+ match takes it |
| SanitizeContent.ReplaceAllAtN | src/lib/zendo/transformers/sanitizeContent.ts:28 | a global replace rewrites the match at the front and continues after it, remembering the character before |
| SanitizeContent.ReplaceAllNoMatch | src/lib/zendo/transformers/sanitizeContent.ts:28 | a global replace with no match anywhere returns the text unchanged |
| SanitizeContent.NoMatchWithout | src/lib/zendo/transformers/sanitizeContent.ts:28 | a pattern that needs a character never matches text without it |
| SanitizeContent.ListItem | src/lib/zendo/transformers/sanitizeContent.ts:19 | a list-item match gives a marker that ends before the line does, after the indentation |
| SanitizeContent.ProcessLine | src/lib/zendo/transformers/sanitizeContent.ts:17-43 | a list-item line keeps its indentation and marker at the front; the rest of it goes through the list rewrites (ListLine), and any other line through the root rewrites (RootLine) |
| SanitizeContent.RootLine | src/lib/zendo/transformers/sanitizeContent.ts:35-42 | a line that is not a list item: the root bullet rewrite, then the root number rewrite, over the whole line; it leaves a plain line unchanged (RootLinePlain) |
| SanitizeContent.ListLineAsWritten | src/lib/zendo/transformers/sanitizeContent.ts:21-34 | the list-line rewrites as the code runs them, over the whole line including its own marker; the consequence is stated by ListLineAsWrittenMovesItem |
| SanitizeContent.ProcessLines | src/lib/zendo/transformers/sanitizeContent.ts:15-45 | the body split on line feeds, each line processed, joined again; a plain body comes back unchanged (ProcessLinesPlain) |
| SanitizeContent.TidyMarkers | src/lib/zendo/transformers/sanitizeContent.ts:47-49 | text whose lines have no list marker followed by two or more blanks is left unchanged |
| SanitizeContent.CollapseBlankLines | src/lib/zendo/transformers/sanitizeContent.ts:51-52 | the result never has three line feeds in a row, and text that has none is unchanged |
| SanitizeContent.NumberedListItem | src/lib/zendo/transformers/sanitizeContent.ts:19 | leading white space, digits, a dot and white space make a list item: the white space is its indent, the digits and the dot its marker |
| SanitizeContent.IndentedNumberedItem | src/lib/zendo/transformers/sanitizeContent.ts:19 | "  1. First" is a list item with a two-space indent and the marker "1." |
| SanitizeContent.PatternsNeedTheirCharacter | src/lib/zendo/transformers/sanitizeContent.ts:28-40 | the bullet patterns need a • and the number patterns a dot |
| SanitizeContent.ListRewritesPlain | src/lib/zendo/transformers/sanitizeContent.ts:28-32 | a list line's text without • or dot is not rewritten |
| SanitizeContent.NumberedItemMatch | src/lib/zendo/transformers/sanitizeContent.ts:32 | the inline number pattern takes the leading whitespace, the digits, the dot and the following whitespace |
| SanitizeContent.NumberedItemRep | src/lib/zendo/transformers/sanitizeContent.ts:32 | that match is replaced by a newline, the sub-indent, the number and one space |
| SanitizeContent.NumberedItemRewrite | src/lib/zendo/transformers/sanitizeContent.ts:32 | a numbered item preceded by whitespace is moved to a new line at the sub-indent |
| SanitizeContent.PlainTextHasNoNumber | src/lib/zendo/transformers/sanitizeContent.ts:32 | text without a dot is untouched by the number rewrite |
| SanitizeContent.PlainTextHasNoBullet | src/lib/zendo/transformers/sanitizeContent.ts:28 | text without • is untouched by the bullet rewrite |
| SanitizeContent.ListLineAsWrittenMovesItem | src/lib/zendo/transformers/sanitizeContent.ts:21-34 | as written, an indented numbered item has its own marker matched by the inline rule and is moved to a new line, two spaces deeper |
| SanitizeContent.ListLineAsWrittenExample | src/lib/zendo/transformers/sanitizeContent.ts:21-34 | as written, "  1. First" becomes a newline followed by "    1. First" |
| SanitizeContent.ListLine | src/lib/zendo/transformers/sanitizeContent.ts:21-34 | a list line keeps its indentation and marker; only the text after them is rewritten |
| SanitizeContent.ListLineKeepsItem | src/lib/zendo/transformers/sanitizeContent.ts:21-34 | "  1. First" is left as it is |
| SanitizeContent.InlineBulletBecomesItem | src/lib/zendo/transformers/sanitizeContent.ts:28-38 | a • preceded by whitespace, after text, starts a new dash item at the given indent |
| SanitizeContent.BulletMatch | src/lib/zendo/transformers/sanitizeContent.ts:28-38 | the bullet pattern takes the leading whitespace, the • and the whitespace after it |
| SanitizeContent.BulletRewrites | src/lib/zendo/transformers/sanitizeContent.ts:28 | " milk • eggs" with a two-space sub-indent becomes " milk", a newline and "  - eggs" |
| SanitizeContent.ListLineSplitsBullet | src/lib/zendo/transformers/sanitizeContent.ts:21-34 | "- milk • eggs" becomes "- milk" and a nested "  - eggs" |
| SanitizeContent.PlainHasNoItem | src/lib/zendo/transformers/sanitizeContent.ts:28-40 | none of the four item patterns matches plain text |
| SanitizeContent.PlainUnchanged | src/lib/zendo/transformers/sanitizeContent.ts:28-40 | each of the four item rewrites leaves plain text unchanged |
| SanitizeContent.ListLinePlain | src/lib/zendo/transformers/sanitizeContent.ts:21-34 | a plain list line is unchanged |
| SanitizeContent.RootBulletMatch | src/lib/zendo/transformers/sanitizeContent.ts:38 | at the start of a line, optional white space, a • and the white space after it match the whole root bullet pattern |
| SanitizeContent.RootLineLeadingBullet | src/lib/zendo/transformers/sanitizeContent.ts:38-41 | a non-list line that starts with a •, with or without white space before it, becomes "\n- " and the rest of the line |
| SanitizeContent.RootLineBulletExample | src/lib/zendo/transformers/sanitizeContent.ts:38-41 | "• eggs" becomes "\n- eggs" |
| SanitizeContent.RootLinePlain | src/lib/zendo/transformers/sanitizeContent.ts:35-42 | a plain non-list line is unchanged |
| SanitizeContent.ProcessLinePlain | src/lib/zendo/transformers/sanitizeContent.ts:17-43 | every plain line is unchanged |
| SanitizeContent.ProcessLinesPlain | src/lib/zendo/transformers/sanitizeContent.ts:15-45 | a plain body survives the split, the per-line rewrite and the join unchanged |
| SanitizeContent.MarkerLengthOfMarker | src/lib/zendo/transformers/sanitizeContent.ts:49 | a list marker (a dash, star or plus, or digits and a dot) at the start of a text is matched whole, whatever follows it |
| SanitizeContent.MarkerSpacingCollapses | src/lib/zendo/transformers/sanitizeContent.ts:49 | at the start of a line, a list marker (a dash, star or plus, or digits and a dot) followed by two or more blanks is left with one space, and scanning resumes after the blanks |
| SanitizeContent.InsideLineNoMarker | src/lib/zendo/transformers/sanitizeContent.ts:49 | away from the start of a line the marker pattern never matches |
| SanitizeContent.TidyMarkersExample | src/lib/zendo/transformers/sanitizeContent.ts:47-49 | "-      Item" becomes "- Item" |
| SanitizeContent.TidyNumberedExample | src/lib/zendo/transformers/sanitizeContent.ts:47-49 | "12.   Step" becomes "12. Step" |
| SanitizeContent.TidyLine | src/lib/zendo/transformers/sanitizeContent.ts:47-49 | a line of a marker, two or more spaces and a word is tidied to the marker, one space and the word |
| SanitizeContent.MarkerSpacesWord | src/lib/zendo/transformers/sanitizeContent.ts:47-49 | a line of a list marker, two or more spaces and a word keeps the marker, one space and the word |
| SanitizeContent.CollapseShape | src/lib/zendo/transformers/sanitizeContent.ts:52 | after collapsing, no three newlines follow each other, and a leading run of three or more newlines becomes two |
| SanitizeContent.NoTripleNoMatch | src/lib/zendo/transformers/sanitizeContent.ts:52 | text without three newlines in a row has nothing to collapse |
| SanitizeContent.CollapseIdempotent | src/lib/zendo/transformers/sanitizeContent.ts:52 | collapsing twice is collapsing once |
| SanitizeContent.TrimNoTriple | src/lib/zendo/transformers/sanitizeContent.ts:55 | trimming keeps the absence of three newlines in a row |
| SanitizeContent.SanitizeBody | src/lib/zendo/transformers/sanitizeContent.ts:15-55 | the sanitized body has no surrounding whitespace and never three newlines in a row |
| SanitizeContent.SanitizeBodyKeepsSanitized | src/lib/zendo/transformers/sanitizeContent.ts:15-55 | a body that is already sanitized is a fixed point |
| SanitizeContent.Sanitize | src/lib/zendo/transformers/sanitizeContent.ts:6-62 | the path is kept; binary content passes through; text keeps its front matter and gets a body that is trimmed and has no three newlines in a row |
| SanitizeContent.SanitizeKeepsSanitized | src/lib/zendo/transformers/sanitizeContent.ts:6-62 | an entry whose body is already sanitized comes out unchanged |
| Sitemap.SectionUrls | src/pages/sitemap.xml.ts:27-30 | one URL per id, each the site, the section and the id |
| Sitemap.Urls | src/pages/sitemap.xml.ts:15-31 | the eight static pages first, then waypoints, books, hikes and writings, one URL per entry and in that order |
| Sitemap.SitemapXml | src/pages/sitemap.xml.ts:33-46 | the document starts with the XML declaration and the urlset opening and ends with its closing tag |
| Sitemap.Body | src/pages/sitemap.xml.ts:39-45 | the url blocks joined by line breaks; when no URL spans two lines, reading the loc lines back gives the URLs, in order |
| Sitemap.BlocksLocs | src/pages/sitemap.xml.ts:39-45 | by induction over the URLs: each three-line block reads back as its URL, the rest of the blocks following it |
| Sitemap.SitemapLocs | src/pages/sitemap.xml.ts:33-46 | reading the document's locations back gives exactly the URLs, when none holds a newline |
| Sitemap.EntryUrl | src/pages/sitemap.xml.ts:27-30 | an entry's page is a page of the site with a trailing slash, and on one line when section and id are |
| Sitemap.UrlsOneLine | src/pages/sitemap.xml.ts:15-31 | when no id holds a line break, no URL of the list does |
| Sitemap.SiteSitemap | src/pages/sitemap.xml.ts:5-46 | the site's sitemap lists exactly the static pages and then each entry's URL, eight plus the number of entries |
| Text.Trim | src/lib/zendo/transformers/sanitizeContent.ts:55 | the trimmed text is a slice of the original, with only white space before and after it, that neither starts nor ends with white space |
| Text.Utf16Length | src/controllers/command-palette.ts:192 | `query.length` counts UTF-16 code units: between one and two per character, two exactly for characters beyond U+FFFF, so as many as the characters when there are none of those |
| Text.Split | src/lib/zendo/transformers/sanitizeContent.ts:15 | splitting gives at least one part, and no part holds the separator |
| Text.JoinSplit | src/lib/zendo/transformers/sanitizeContent.ts:15-45 | joining the split lines with the separator gives the text back |
| Text.SplitJoin | src/lib/zendo/transformers/sanitizeContent.ts:15-45 | splitting joined parts that hold no separator gives the parts back |
| Text.ToLowerAscii | src/content.config.ts:17-18 | lowering keeps the length and lowers each letter |
| Text.ParseInt | src/controllers/content-tabs.ts:83 | parseInt finds no number iff no digit follows the leading white space and sign |
| Text.ParseIntOfIntToString | src/controllers/content-tabs.ts:83-94 | parsing the decimal form of an integer gives the integer back |
| Text.NatToStringValue | src/controllers/content-tabs.ts:94 | the decimal form of a number reads back as that number |

## Left out

- Floating point: the haversine distance, the Web-Mercator projection, `Math.log2` for the zoom candidates, `toFixed(2)` and the default number-to-string conversion are passed in as function values (`GpxStats.Numerics`). The model computes on `real`, with no rounding.
- GpxMap.GenerateMap and GpxTransformer.ExtractDataFromGpx require that the Mercator y passed in decreases as latitude grows. The real projection has this property, but the model cannot compute it.
- GPX parsing with cheerio: a track is given as a sequence of points, each with an optional time.
- The file system (`existsSync`, `readFileSync`, `writeFileSync`, `ensureDir`) and `path.resolve`: the GPX files are a map from path to parsed points, and the written map file is returned as a value.
- Fetching map tiles over the network: the fetch is a `TileFetch` parameter that gives a tile's base64 image or nothing.
- gray-matter parse and stringify: an entry's content is a `Document` value (frontmatter entries and body). Buffer content is read through a `bufferText` parameter.
- Date parsing and `toISOString`: these are a `toIso` parameter; timestamps are integer milliseconds, so a missing or invalid `publishedOn` (an Invalid Date, whose `getTime()` is NaN and makes the sort comparator NaN) is not modelled.
- GlobalStats: the glob over the content directories, the file reads and the JSON file written are left out; the files read are inputs and the statistics are returned. `new Date`, `parseFloat` and `Number` are a `Readers` parameter, and `toLocaleString` is a `localeString` parameter.
- Analytics: sending to `gtag`/`dataLayer` is modelled as appending an event to `sent`. The development-mode console logging is left out.
- Analytics: the click-tracking DOM handler (`setupClickTracking`) and the `requestAnimationFrame` scroll throttle are left out. Timers fire through `OnTimer`, and the singleton `getInstance` is the class's constructor.
- CommandPalette: the open and close animations are left out, and the delayed close takes effect at once. The search debounce is modelled as a pending query that `FireSearch` runs with the search's outcome.
- CommandPalette: `formatDate` is a parameter. The analytics calls, the Stimulus connect/disconnect listeners and the result click handler are left out.
- CommandPalette.KnownStatus: membership is in the status map's own keys; the source's `in` also accepts inherited object keys such as "toString", which the content schema keeps out of the status field.
- CommandPalette: on highlight, the model records only the selected flag of each row, not the date and badge class changes. The source recolours a row's badge from `filteredItems[index]`, which is fetch order like the Enter target of the first Findings row, so the colour can come from another item's status; the model keeps each badge as first rendered.
- CommandPalette.CommandPaletteController.HandleSearchKeydown: Enter opens the item of the highlighted row (HighlightedItem), the corrected behaviour of the first Findings row. The code as written opens `filteredItems[selectedIndex]` (EnterTarget), which can be another item.
- ContentGrid: HTML templates and `innerHTML` are left out, rows are values. The server action is an outcome parameter, and any exception it throws is the one `SearchFailed` outcome.
- Gallery: CSS classes, `scrollIntoView` and the animations are left out. CloseFullscreen closes at once instead of on `transitionend`. The connect/disconnect listeners are left out.
- ContentTabs: of `buildURL`, only the page parameter is modelled. The animations are left out, and the event that triggers a switch is given as the tab and its index.
- Paths.Basename: a trailing '/' is not stripped first, as Node's `path.basename` does, so "a/b/" gives "" where Node gives "b". Content paths never end in '/'.
- Navigation: `navigation.json` is a parameter, and `RegExp` matching is an abstract `matches` predicate.
- Navigation.ActiveIffSomeNodeMatches requires a path that is already normalised. For other paths the model only unfolds the definition.
- ContentConfig: the Zod engine and the schema fields checked by library formats (`url()`, `coerce.date()`) are left out. `toLowerCase` is lowering of ASCII letters only.
- SanitizeContent: `\s` is the full ECMAScript white-space set, including the Unicode space separators.
- SanitizeContent.ProcessLine: a list-item line goes through the corrected ListLine of the third Findings row, which keeps the line's own marker. As written (ListLineAsWritten), "  1. First" becomes a line feed followed by "    1. First".
- SanitizeContent.ProcessLines: uses the corrected ProcessLine, so as written the body "Intro\n  1. First" would become "Intro\n\n    1. First", whereas the model keeps the line "  1. First" as it is (ListLineKeepsItem).
- SanitizeContent.SanitizeBody: built on the corrected ProcessLines, as above.
- SanitizeContent.Sanitize: built on the corrected SanitizeBody, as above.
- SanitizeContent.SanitizeKeepsSanitized: that the sanitizer changes nothing is proved only for bodies that are already sanitized (plain, tidy markers, no run of empty lines, trimmed), not as idempotence on every body.
- SanitizeContent.MarkerSpacingCollapses: that list markers (dash, star, plus and numbered) come out tidy is proved for one marker at a time and for two examples (TidyMarkersExample, TidyNumberedExample), not for a whole body.
- Sitemap: the HTTP `Response` headers are left out, and `getCollection` results are inputs.
- The rest of the repository (site configuration, type declarations, Astro config, middleware, the other controllers and the pages) is not part of this model.

## Findings

| source | as written | input that shows it | evidently intended | confidence | as-written member | corrected member |
|---|---|---|---|---|---|---|
| src/controllers/command-palette.ts:421-428 | Enter opens `filteredItems[selectedIndex]`, indexing the results in the order they were fetched, while the rows are shown grouped by type | results [waypoint a, book b, waypoint c], two ArrowDowns: the row for c is highlighted, Enter opens b | Enter opens the highlighted row's item | high, not executed | CommandPalette.EnterOpensAnotherItem | CommandPalette.HighlightedItem |
| atlas.config.ts:58-65 | inside the sixty-minute window, equal creation times and equal status priorities return 1 whichever entry comes first | two charted notes created at 0, updated at 0 and at 1000 ms | a tie compares as 0, so the comparator is antisymmetric | high, not executed | AtlasConfig.SortEntriesNotAntisymmetric | AtlasConfig.SortEntriesConsistentAntisymmetric |
| src/lib/zendo/transformers/sanitizeContent.ts:32 | the inline numbered-list rule also matches the line's own leading marker | the line "  1. First" | only markers inside the line start a new line | medium, not executed | SanitizeContent.ListLineAsWrittenExample | SanitizeContent.ListLineKeepsItem |
