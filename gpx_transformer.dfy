/** The `extractDataFromGPX` content transformer: for a hike entry, find the
    GPX track beside it, compute the track's statistics and draw its map,
    then write both into the entry's frontmatter. */
module GpxTransformer {
  import opened Common
  import opened Text
  import opened Frontmatter
  import opened GpxStats
  import opened GpxMap
  import opened Paths

  /** Where the track of an entry is looked for: `path.resolve(dirname,
      "./src/content/assets/gpxs", stem + ".gpx")` for an absolute entry path.
      The file is named after the entry's stem. */
  function GpxPath(originalPath: string): (p: string)
    ensures Basename(p) == Stem(originalPath) + ".gpx"
  {
    var dir := Dirname(originalPath) + "/src/content/assets/gpxs";
    var file := Stem(originalPath) + ".gpx";
    StemNoSlash(originalPath);
    GpxFileName(Stem(originalPath));
    BasenameOf(dir, file);
    dir + "/" + file
  }

  lemma GpxFileName(stem: string)
    requires '/' !in stem
    ensures '/' !in stem + ".gpx"
  {
    assert forall c :: c in stem + ".gpx" ==> c in stem || c in ".gpx";
  }

  // ---------------------------------------------------------------------------
  // Frontmatter injection

  const MapsDir: string := "./src/content/assets/maps/"

  /** The assignments the transformer makes to the frontmatter, in order. */
  function Injections(h: HikeStats, mapFileName: string): (sets: Entries)
    ensures |sets| == 9
  {
    [("distance", Str(h.distance)),
     ("gain", Int(h.gain)),
     ("loss", Int(h.loss)),
     ("maxEle", Int(h.maxEle)),
     ("minEle", Int(h.minEle)),
     ("type", Str(h.trailType)),
     ("movingTime", Str(h.movingTime)),
     ("totalTime", Str(h.totalTime)),
     ("map", Str(MapsDir + mapFileName))]
  }

  /** The nine keys written are distinct. */
  lemma InjectionsUnique(h: HikeStats, mapFileName: string)
    ensures UniqueKeys(Injections(h, mapFileName))
  {
    var ks := Keys(Injections(h, mapFileName));
    assert ks == ["distance", "gain", "loss", "maxEle", "minEle", "type", "movingTime", "totalTime", "map"];
    assert ks[0][0] == 'd' && ks[1][0] == 'g' && ks[2][0] == 'l' && ks[5][0] == 't' && ks[8][0] == 'm';
    assert ks[3][1] == 'a' && ks[4][1] == 'i' && ks[6][1] == 'o' && ks[7][1] == 'o';
    assert |ks[3]| == 6 && |ks[4]| == 6 && |ks[6]| == 10 && |ks[7]| == 9 && |ks[8]| == 3;
    assert |ks[5]| == 4;
  }

  /** The frontmatter after the statistics and the map path are written:
      every written key reads as its statistic, and every other key reads
      as before. */
  function InjectStats(data: Entries, h: HikeStats, mapFileName: string): (d: Entries)
    ensures var sets := Injections(h, mapFileName);
      forall i :: 0 <= i < |sets| ==> Get(d, sets[i].0) == Some(sets[i].1)
    ensures forall key :: key !in Keys(Injections(h, mapFileName)) ==> Get(d, key) == Get(data, key)
  {
    InjectionsUnique(h, mapFileName);
    SetAllReads(data, Injections(h, mapFileName));
    SetAll(data, Injections(h, mapFileName))
  }

  // ---------------------------------------------------------------------------
  // The transformer

  /** The map file the transformer writes: its name in the maps directory
      and its SVG text. */
  datatype MapFile = MapFile(name: string, svg: string)

  datatype GpxOutput = GpxOutput(entry: Entry, mapFile: Option<MapFile>)

  /** The frontmatter and body gray-matter reads from the entry's content;
      `bufferText` reads them from a buffer's text. */
  function Parsed(c: Content, bufferText: seq<bv8> -> Document): Document
  {
    match c
    case Text(doc) => doc
    case Binary(bytes) => bufferText(bytes)
  }

  /** `extractDataFromGPX()` applied to one entry. `gpxFiles` gives the parsed
      track points of the GPX file at a path, or `None` when there is no file
      there. */
  method ExtractDataFromGpx(originalPath: string, originalContent: Content,
                            gpxFiles: string -> Option<seq<Point>>, bufferText: seq<bv8> -> Document,
                            num: Numerics, fetch: TileFetch)
    returns (r: Result<GpxOutput>)
    requires MercatorAntitone(num)
    ensures var gpxPath := GpxPath(originalPath);
      && (r.Failure? <==> gpxFiles(gpxPath).None?)
      && (r.Failure? ==> r.message == "GPX file not found for " + originalPath + " at " + gpxPath)
    ensures r.Success? && gpxFiles(GpxPath(originalPath)) == Some([]) ==>
      r.value == GpxOutput(Entry(originalPath, originalContent), None)
    ensures r.Success? && gpxFiles(GpxPath(originalPath)) != Some([]) ==>
      var points := gpxFiles(GpxPath(originalPath)).value;
      var mapFileName := Stem(originalPath) + ".svg";
      var doc := Parsed(originalContent, bufferText);
      && |points| >= 1
      && r.value.entry.path == originalPath
      && r.value.entry.content
           == Text(Document(InjectStats(doc.data, Report(TrackStats(points, num), num), mapFileName), doc.body))
      && r.value.mapFile == Some(MapFile(mapFileName, SvgDocument(MapOf(points, num, fetch), num)))
  {
    var stem := Stem(originalPath);
    var gpxPath := GpxPath(originalPath);
    var gpx := gpxFiles(gpxPath);
    if gpx.None? {
      return Failure("GPX file not found for " + originalPath + " at " + gpxPath);
    }
    var trackPoints := gpx.value;
    if |trackPoints| == 0 {
      return Success(GpxOutput(Entry(originalPath, originalContent), None));
    }

    var calculated := CalculateStats(trackPoints, num);
    var stats := Report(calculated.value, num);

    var svgContent := GenerateMap(trackPoints, num, fetch);
    var mapFileName := stem + ".svg";

    var doc := Parsed(originalContent, bufferText);
    var data := InjectStats(doc.data, stats, mapFileName);
    r := Success(GpxOutput(Entry(originalPath, Text(Document(data, doc.body))),
                           Some(MapFile(mapFileName, svgContent))));
  }
}
