/** The track map of `generateSvgMapWithTiles` (extractDataFromGPX.ts): the
    zoom choice and clamp, the Web-Mercator (EPSG:3857) slippy-tile viewport
    and tile range, the 50-tile budget, the tile loop, the SVG path, and the
    SVG document around them. */
module GpxMap {
  import opened Common
  import opened Text
  import opened GpxStats

  const Width: int := 600
  const Height: int := 400
  const TileSize: int := 256
  const PadFactor: real := 1.2
  const MaxTiles: int := 50
  const MinZoom: int := 1
  const MaxZoom: int := 18

  function Pow2(z: nat): (p: nat)
    ensures p >= 1
  {
    if z == 0 then 1 else 2 * Pow2(z - 1)
  }

  function MaxReal(a: real, b: real): real { if a >= b then a else b }

  // ---------------------------------------------------------------------------
  // Zoom

  /** A floored zoom candidate: a level, +Infinity (a track of zero extent
      along that axis: `log2(x / 0)`), or NaN (a negative extent). */
  datatype Zoom = Level(n: int) | PlusInfinity | NotANumber

  /** `Math.floor(Math.log2(pixels / (worldSpan * 256)))`. */
  function ZoomCandidate(pixels: real, worldSpan: real, num: Numerics): Zoom
  {
    if worldSpan > 0.0 then Level(num.floorLog2(pixels / (worldSpan * TileSize as real)))
    else if worldSpan == 0.0 then PlusInfinity
    else NotANumber
  }

  /** `Math.floor(Math.min(zoomX, zoomY))`, on floored candidates: flooring
      commutes with taking the minimum. */
  function MinZoomOf(a: Zoom, b: Zoom): (r: Zoom)
    ensures r.NotANumber? <==> a.NotANumber? || b.NotANumber?
    ensures r.PlusInfinity? <==> a.PlusInfinity? && b.PlusInfinity?
    ensures r.Level? ==> (a.Level? && r.n <= a.n) || (b.Level? && r.n <= b.n)
    ensures r.Level? && a.Level? ==> r.n <= a.n
    ensures r.Level? && b.Level? ==> r.n <= b.n
  {
    match (a, b)
    case (NotANumber, _) => NotANumber
    case (_, NotANumber) => NotANumber
    case (PlusInfinity, _) => b
    case (_, PlusInfinity) => a
    case (Level(x), Level(y)) => if x <= y then a else b
  }

  /** `Math.min(Math.max(zoom, 1), 18)`: NaN stays NaN, +Infinity becomes 18. */
  function ClampZoom(z: Zoom): (r: Zoom)
    ensures r.NotANumber? <==> z.NotANumber?
    ensures !r.NotANumber? ==> r.Level? && MinZoom <= r.n <= MaxZoom
    ensures z.Level? && MinZoom <= z.n <= MaxZoom ==> r == z
    ensures z.Level? && r.Level? && z.n != r.n ==> (z.n < MinZoom && r.n == MinZoom) || (z.n > MaxZoom && r.n == MaxZoom)
  {
    match z
    case NotANumber => NotANumber
    case PlusInfinity => Level(MaxZoom)
    case Level(n) => Level(if n < MinZoom then MinZoom else if n > MaxZoom then MaxZoom else n)
  }

  /** The bounding box of the track in degrees. */
  datatype Bounds = Bounds(minLat: real, maxLat: real, minLon: real, maxLon: real)

  function Lats(points: seq<Point>): (s: seq<real>)
    ensures |s| == |points|
  {
    seq(|points|, i requires 0 <= i < |points| => points[i].lat)
  }

  function Lons(points: seq<Point>): (s: seq<real>)
    ensures |s| == |points|
  {
    seq(|points|, i requires 0 <= i < |points| => points[i].lon)
  }

  /** `Math.min(...latitudes)` and friends over a non-empty track. */
  function BoundsOf(points: seq<Point>): (b: Bounds)
    requires |points| >= 1
    ensures IsMinimum(b.minLat, Lats(points), |points|) && IsMaximum(b.maxLat, Lats(points), |points|)
    ensures IsMinimum(b.minLon, Lons(points), |points|) && IsMaximum(b.maxLon, Lons(points), |points|)
    ensures b.minLat <= b.maxLat && b.minLon <= b.maxLon
  {
    RunningExtrema(Lats(points), |points|);
    RunningExtrema(Lons(points), |points|);
    Bounds(RunningMin(Lats(points), |points|), RunningMax(Lats(points), |points|),
           RunningMin(Lons(points), |points|), RunningMax(Lons(points), |points|))
  }

  /** The Web-Mercator projection goes down as latitude goes up: what makes
      the north edge of a box the smaller world y. */
  ghost predicate MercatorAntitone(num: Numerics)
  {
    forall a: real, b: real :: a <= b ==> num.mercatorY(b) <= num.mercatorY(a)
  }

  /** `finalZoom`: the largest zoom at which the box, padded by 1.2, fits the
      600x400 canvas, clamped to [1, 18]. */
  function FinalZoom(b: Bounds, num: Numerics): (z: Zoom)
    ensures b.minLat <= b.maxLat && b.minLon <= b.maxLon && MercatorAntitone(num) ==>
              z.Level? && MinZoom <= z.n <= MaxZoom
  {
    assert b.minLat <= b.maxLat && MercatorAntitone(num) ==>
             num.mercatorY(b.maxLat) <= num.mercatorY(b.minLat);
    var worldMinX := (b.minLon + 180.0) / 360.0;
    var worldMaxX := (b.maxLon + 180.0) / 360.0;
    var worldMinY := num.mercatorY(b.maxLat);
    var worldMaxY := num.mercatorY(b.minLat);
    var zoomX := ZoomCandidate(Width as real * PadFactor, worldMaxX - worldMinX, num);
    var zoomY := ZoomCandidate(Height as real * PadFactor, worldMaxY - worldMinY, num);
    ClampZoom(MinZoomOf(zoomX, zoomY))
  }

  // ---------------------------------------------------------------------------
  // Viewport

  /** `lon2tile`: exact, it is linear in the longitude. */
  function LonToTile(lon: real, z: nat): real
  {
    (lon + 180.0) / 360.0 * (Pow2(z) as real)
  }

  /** `lat2tile`, through the abstract Mercator projection. */
  function LatToTile(lat: real, z: nat, num: Numerics): real
  {
    num.mercatorY(lat) * (Pow2(z) as real)
  }

  /** The `viewBox`: centred on the track, with the canvas's 3:2 aspect
      ratio, scaled so the track fills at most 80% of each side. */
  datatype Viewport = Viewport(minX: real, minY: real, width: real, height: real, scale: real)

  /** Global-pixel box of the track at zoom `z`: (pMinX, pMinY, pMaxX, pMaxY). */
  datatype PixelBox = PixelBox(minX: real, minY: real, maxX: real, maxY: real)

  function PixelBoxOf(b: Bounds, z: nat, num: Numerics): PixelBox
  {
    PixelBox(LonToTile(b.minLon, z) * TileSize as real, LatToTile(b.maxLat, z, num) * TileSize as real,
             LonToTile(b.maxLon, z) * TileSize as real, LatToTile(b.minLat, z, num) * TileSize as real)
  }

  function ViewportOf(p: PixelBox): (v: Viewport)
    ensures v.width == Width as real * v.scale && v.height == Height as real * v.scale
    ensures v.minX + v.width / 2.0 == (p.minX + p.maxX) / 2.0
    ensures v.minY + v.height / 2.0 == (p.minY + p.maxY) / 2.0
    ensures v.scale >= (p.maxX - p.minX) / 480.0 && v.scale >= (p.maxY - p.minY) / 320.0
  {
    var trackWidth := p.maxX - p.minX;
    var trackHeight := p.maxY - p.minY;
    var centerX := (p.minX + p.maxX) / 2.0;
    var centerY := (p.minY + p.maxY) / 2.0;
    var scale := MaxReal(trackWidth / (Width as real * 0.8), trackHeight / (Height as real * 0.8));
    var viewWidth := Width as real * scale;
    var viewHeight := Height as real * scale;
    Viewport(centerX - viewWidth / 2.0, centerY - viewHeight / 2.0, viewWidth, viewHeight, scale)
  }

  /** The viewport contains the whole track with a margin: at least 10% of
      the viewport's width (height) lies on each side of the track. */
  lemma ViewportContainsTrack(p: PixelBox)
    requires p.minX <= p.maxX && p.minY <= p.maxY
    ensures var v := ViewportOf(p);
      && v.minX + v.width / 10.0 <= p.minX && p.maxX <= v.minX + v.width - v.width / 10.0
      && v.minY + v.height / 10.0 <= p.minY && p.maxY <= v.minY + v.height - v.height / 10.0
  {
  }

  /** A box whose longitudes and latitudes are ordered has a non-negative
      extent in pixels, at every zoom. */
  lemma PixelBoxOrdered(b: Bounds, z: nat, num: Numerics)
    requires b.minLat <= b.maxLat && b.minLon <= b.maxLon
    requires MercatorAntitone(num)
    ensures var p := PixelBoxOf(b, z, num); p.minX <= p.maxX && p.minY <= p.maxY
  {
    assert num.mercatorY(b.maxLat) <= num.mercatorY(b.minLat);
    var k := Pow2(z) as real;
    assert (b.minLon + 180.0) / 360.0 * k <= (b.maxLon + 180.0) / 360.0 * k;
    assert num.mercatorY(b.maxLat) * k <= num.mercatorY(b.minLat) * k;
  }

  // ---------------------------------------------------------------------------
  // Tiles

  /** Inclusive range of tile columns and rows. */
  datatype TileRange = TileRange(minX: int, maxX: int, minY: int, maxY: int)

  /** Inclusive range of the tiles under the viewport: for a viewport of
      non-negative size it is not empty and covers every pixel of it. */
  function TileRangeOf(v: Viewport): (t: TileRange)
    ensures v.width >= 0.0 ==> t.minX <= t.maxX
    ensures v.height >= 0.0 ==> t.minY <= t.maxY
    ensures (t.minX * TileSize) as real <= v.minX && v.minX + v.width < ((t.maxX + 1) * TileSize) as real
    ensures (t.minY * TileSize) as real <= v.minY && v.minY + v.height < ((t.maxY + 1) * TileSize) as real
  {
    var ts := TileSize as real;
    var t := TileRange((v.minX / ts).Floor, ((v.minX + v.width) / ts).Floor,
                       (v.minY / ts).Floor, ((v.minY + v.height) / ts).Floor);
    assert t.minX as real <= v.minX / ts && (v.minX + v.width) / ts < t.maxX as real + 1.0;
    assert t.minY as real <= v.minY / ts && (v.minY + v.height) / ts < t.maxY as real + 1.0;
    t
  }

  function TileCount(t: TileRange): int
  {
    (t.maxX - t.minX + 1) * (t.maxY - t.minY + 1)
  }

  /** A tile fetch: the base64 PNG of tile (x, y) at zoom z, or `None` when
      the request fails. */
  type TileFetch = (int, int, int) -> Option<string>

  const ImageOpen: string := "<image x=\""
  const ImageY: string := "\" y=\""
  const ImageSize: string := "\" width=\"256\" height=\"256\" href=\"data:image/png;base64,"
  const ImageClose: string := "\" />"

  /** The `<image>` element of tile (x, y), placed at its pixel offset. */
  function TileElement(x: int, y: int, base64: string): string
  {
    ImageOpen + IntToString(x * TileSize) + ImageY + IntToString(y * TileSize)
      + ImageSize + base64 + ImageClose
  }

  /** The image for one tile, when the fetch returns a non-empty string
      (an empty string is falsy and is skipped). */
  function TileAt(x: int, y: int, z: int, fetch: TileFetch): (r: seq<string>)
    ensures |r| <= 1
  {
    match fetch(x, y, z)
    case Some(b) => if b != "" then [TileElement(x, y, b)] else []
    case None => []
  }

  /** The length of [lo, hi), zero when the range is inverted. */
  function Span(lo: int, hi: int): nat
  {
    if hi > lo then hi - lo else 0
  }

  /** Tiles of column x for the rows in [lo, hi). */
  function Column(x: int, lo: int, hi: int, z: int, fetch: TileFetch): (r: seq<string>)
    ensures |r| <= Span(lo, hi)
    decreases hi - lo
  {
    if hi <= lo then [] else Column(x, lo, hi - 1, z, fetch) + TileAt(x, hi - 1, z, fetch)
  }

  /** Tiles of the columns in [lo, hi), column by column, each over the rows
      of `t`. */
  function Grid(lo: int, hi: int, t: TileRange, z: int, fetch: TileFetch): seq<string>
    decreases hi - lo
  {
    if hi <= lo then []
    else Grid(lo, hi - 1, t, z, fetch) + Column(hi - 1, t.minY, t.maxY + 1, z, fetch)
  }

  /** At most one image per (column, row) pair of the grid. */
  lemma {:induction false} GridLength(lo: int, hi: int, t: TileRange, z: int, fetch: TileFetch)
    ensures |Grid(lo, hi, t, z, fetch)| <= Span(lo, hi) * Span(t.minY, t.maxY + 1)
    decreases hi - lo
  {
    if hi > lo {
      GridLength(lo, hi - 1, t, z, fetch);
      var rows, cols := Span(t.minY, t.maxY + 1), Span(lo, hi - 1);
      assert Span(lo, hi) == cols + 1;
      MulSucc(cols, rows);
    }
  }

  lemma MulSucc(a: int, b: int)
    ensures (a + 1) * b == a * b + b
  {
  }

  /** The grid never holds more images than there are tiles in the range. */
  lemma GridBound(t: TileRange, z: int, fetch: TileFetch)
    ensures |Grid(t.minX, t.maxX + 1, t, z, fetch)| <= if TileCount(t) > 0 then TileCount(t) else 0
  {
    GridLength(t.minX, t.maxX + 1, t, z, fetch);
    var cols, rows := Span(t.minX, t.maxX + 1), Span(t.minY, t.maxY + 1);
    if cols > 0 && rows > 0 {
      assert cols * rows == TileCount(t);
    } else {
      assert cols * rows == 0;
    }
  }

  /** The tile images of a range: none beyond 50 tiles, otherwise the grid. */
  function TileImages(t: TileRange, z: int, fetch: TileFetch): seq<string>
  {
    if TileCount(t) > MaxTiles then [] else Grid(t.minX, t.maxX + 1, t, z, fetch)
  }

  /** The tile loop: skipped entirely beyond 50 tiles; otherwise column by
      column over the range. */
  method FetchTiles(t: TileRange, z: int, fetch: TileFetch) returns (tileImages: seq<string>)
    ensures tileImages == TileImages(t, z, fetch)
    ensures |tileImages| <= MaxTiles
  {
    tileImages := [];
    if TileCount(t) > MaxTiles {
      return;
    }
    var x := t.minX;
    while x <= t.maxX
      invariant t.minX <= x && (x <= t.maxX + 1 || x == t.minX)
      invariant tileImages == Grid(t.minX, x, t, z, fetch)
      decreases t.maxX - x
    {
      var column := FetchColumn(x, t, z, fetch);
      tileImages := tileImages + column;
      x := x + 1;
    }
    assert Grid(t.minX, x, t, z, fetch) == Grid(t.minX, t.maxX + 1, t, z, fetch);
    GridBound(t, z, fetch);
  }

  /** The inner tile loop over the rows of column x: one image per fetch that
      returns a non-empty string, in row order. */
  method FetchColumn(x: int, t: TileRange, z: int, fetch: TileFetch) returns (column: seq<string>)
    ensures column == Column(x, t.minY, t.maxY + 1, z, fetch)
  {
    column := [];
    var y := t.minY;
    while y <= t.maxY
      invariant t.minY <= y && (y <= t.maxY + 1 || y == t.minY)
      invariant column == Column(x, t.minY, y, z, fetch)
      decreases t.maxY - y
    {
      var base64 := fetch(x, y, z);
      assert Column(x, t.minY, y + 1, z, fetch) == column + TileAt(x, y, z, fetch);
      if base64.Some? && base64.value != "" {
        column := column + [TileElement(x, y, base64.value)];
      }
      y := y + 1;
    }
    assert Column(x, t.minY, y, z, fetch) == Column(x, t.minY, t.maxY + 1, z, fetch);
  }

  // ---------------------------------------------------------------------------
  // Path

  /** A track point in global pixels at the final zoom. */
  datatype Pixel = Pixel(x: real, y: real)

  function PixelOf(p: Point, z: nat, num: Numerics): Pixel
  {
    Pixel(LonToTile(p.lon, z) * TileSize as real, LatToTile(p.lat, z, num) * TileSize as real)
  }

  function PixelsOf(points: seq<Point>, z: nat, num: Numerics): (r: seq<Pixel>)
    ensures |r| == |points|
  {
    seq(|points|, i requires 0 <= i < |points| => PixelOf(points[i], z, num))
  }

  datatype PathCommand = MoveTo(p: Pixel) | LineTo(p: Pixel)

  /** The drawing commands for the first `k` points: a move to the first,
      then a line to each later point. */
  function PathCommands(pts: seq<Pixel>, k: nat): (cs: seq<PathCommand>)
    requires k <= |pts|
    ensures |cs| == k
    ensures forall j :: 0 <= j < k ==> cs[j].p == pts[j]
    ensures forall j :: 0 <= j < k ==> (cs[j].MoveTo? <==> j == 0)
  {
    if k == 0 then []
    else if k == 1 then [MoveTo(pts[0])]
    else PathCommands(pts, k - 1) + [LineTo(pts[k - 1])]
  }

  /** The template `M ${x} ${y}`, coordinates to two decimals. */
  function MoveText(p: Pixel, num: Numerics): string
  {
    "M " + num.toFixed2(p.x) + " " + num.toFixed2(p.y)
  }

  /** The template ` L ${x} ${y}`, coordinates to two decimals. */
  function LineText(p: Pixel, num: Numerics): string
  {
    " L " + num.toFixed2(p.x) + " " + num.toFixed2(p.y)
  }

  function RenderCommand(c: PathCommand, num: Numerics): string
  {
    match c
    case MoveTo(p) => MoveText(p, num)
    case LineTo(p) => LineText(p, num)
  }

  function RenderPath(cs: seq<PathCommand>, num: Numerics): string
    decreases |cs|
  {
    if cs == [] then "" else RenderPath(cs[..|cs| - 1], num) + RenderCommand(cs[|cs| - 1], num)
  }

  /** The `d` attribute for the first `k` pixels, as the path loop builds it. */
  function PathData(pts: seq<Pixel>, k: nat, num: Numerics): string
    requires k <= |pts|
  {
    if k == 0 then ""
    else if k == 1 then MoveText(pts[0], num)
    else PathData(pts, k - 1, num) + LineText(pts[k - 1], num)
  }

  /** The path data of a non-empty track starts with its move, "M ". */
  lemma {:induction false} PathDataStart(pts: seq<Pixel>, k: nat, num: Numerics)
    requires 1 <= k <= |pts|
    ensures StartsWith(PathData(pts, k, num), "M ")
    decreases k
  {
    if k > 1 {
      PathDataStart(pts, k - 1, num);
      var r := PathData(pts, k - 1, num);
      assert (r + LineText(pts[k - 1], num))[..2] == r[..2];
    } else {
      assert MoveText(pts[0], num)[..2] == "M ";
    }
  }

  /** The path data is the rendering of the drawing commands: a move to the
      first pixel and a line to each later one. */
  lemma {:induction false} PathDataRendersCommands(pts: seq<Pixel>, k: nat, num: Numerics)
    requires k <= |pts|
    ensures PathData(pts, k, num) == RenderPath(PathCommands(pts, k), num)
    decreases k
  {
    if k == 1 {
      assert PathCommands(pts, 1)[..0] == [];
    } else if k > 1 {
      PathDataRendersCommands(pts, k - 1, num);
      assert PathCommands(pts, k)[..k - 1] == PathCommands(pts, k - 1);
    }
  }

  /** The path builder: "M x y" for the first point, then " L x y" per later
      point, coordinates to two decimals; empty when there are no points. */
  method BuildPath(pts: seq<Pixel>, num: Numerics) returns (pathD: string)
    ensures pathD == PathData(pts, |pts|, num)
    ensures pts == [] <==> pathD == []
    ensures pts != [] ==> StartsWith(pathD, "M ")
  {
    pathD := "";
    if |pts| > 0 {
      var firstPoint := pts[0];
      pathD := MoveText(firstPoint, num);
      var i := 1;
      while i < |pts|
        invariant 1 <= i <= |pts|
        invariant pathD == PathData(pts, i, num)
      {
        var pt := pts[i];
        pathD := pathD + LineText(pt, num);
        i := i + 1;
      }
      PathDataStart(pts, |pts|, num);
    }
  }

  // ---------------------------------------------------------------------------
  // The map

  /** Everything the map is drawn from. */
  datatype MapDrawing = MapDrawing(zoom: nat, view: Viewport, range: TileRange, tiles: seq<string>, path: string)

  function JoinTiles(tiles: seq<string>): string
  {
    Join(tiles, "\n    ")
  }

  const SvgHead := "<svg width=\"600\" height=\"400\" viewBox=\""
  const SvgClose := "</svg>"

  /** The SVG document template around the tiles and the path. */
  function SvgDocument(d: MapDrawing, num: Numerics): (r: string)
    ensures StartsWith(r, "<svg width=\"600\" height=\"400\" viewBox=\"")
    ensures EndsWith(r, "</svg>")
  {
    ConcatEnds(SvgHead, SvgInner(d, num), SvgClose);
    SvgHead + SvgInner(d, num) + SvgClose
  }

  /** The template between the opening of the `viewBox` attribute and the
      closing tag of the document. */
  function SvgInner(d: MapDrawing, num: Numerics): string
  {
    num.toFixed2(d.view.minX) + " " + num.toFixed2(d.view.minY) + " "
      + num.toFixed2(d.view.width) + " " + num.toFixed2(d.view.height)
      + SvgDefs + JoinTiles(d.tiles) + SvgPathOpen + d.path + SvgPathStyle
      + num.numberToString(4.0 * d.view.scale) + SvgPathClose
  }

  /** The rest of the `svg` start tag, the shadow and grayscale filters, and
      the opening of the tile layer. */
  const SvgDefs: string :=
    "\" xmlns=\"http://www.w3.org/2000/svg\" xmlns:xlink=\"http://www.w3.org/1999/xlink\">\n"
    + "    <defs>\n"
    + "      <filter id=\"shadow\" x=\"-50%\" y=\"-50%\" width=\"200%\" height=\"200%\">\n"
    + "        <feDropShadow dx=\"2\" dy=\"2\" stdDeviation=\"2\" flood-color=\"#000\" flood-opacity=\"0.5\"/>\n"
    + "      </filter>\n"
    + "      <filter id=\"grayscale\">\n"
    + "        <feColorMatrix type=\"saturate\" values=\"0\"/>\n"
    + "      </filter>\n"
    + "    </defs>\n"
    + "    <g id=\"map-layer\" filter=\"url(#grayscale)\" opacity=\"0.8\">\n"
    + "      "

  /** The end of the tile layer and the start of the track's `path`. */
  const SvgPathOpen: string := "\n    </g>\n    <path d=\""

  const SvgPathStyle: string := "\" stroke=\"oklch(0.45 0.12 145)\" stroke-width=\""

  const SvgPathClose: string :=
    "\" fill=\"none\" stroke-linecap=\"round\" stroke-linejoin=\"round\" filter=\"url(#shadow)\"/>\n  "

  /** The drawing of a non-empty track: its zoom, viewport, tile range,
      tiles and path. The zoom is the clamped final zoom, within [1, 18]; no
      tile is drawn beyond the 50-tile budget and at most 50 ever; the path
      starts with its move. */
  function MapOf(points: seq<Point>, num: Numerics, fetch: TileFetch): (d: MapDrawing)
    requires |points| >= 1
    requires MercatorAntitone(num)
    ensures FinalZoom(BoundsOf(points), num) == Level(d.zoom)
    ensures MinZoom <= d.zoom <= MaxZoom
    ensures TileCount(d.range) > MaxTiles ==> d.tiles == []
    ensures |d.tiles| <= MaxTiles
    ensures StartsWith(d.path, "M ")
  {
    var b := BoundsOf(points);
    var z: nat := FinalZoom(b, num).n;
    var view := ViewportOf(PixelBoxOf(b, z, num));
    var range := TileRangeOf(view);
    GridBound(range, z, fetch);
    PathDataStart(PixelsOf(points, z, num), |points|, num);
    MapDrawing(z, view, range, TileImages(range, z, fetch), PathData(PixelsOf(points, z, num), |points|, num))
  }

  /** `generateSvgMapWithTiles` for a non-empty track. */
  method GenerateMap(points: seq<Point>, num: Numerics, fetch: TileFetch) returns (svg: string)
    requires |points| >= 1
    requires MercatorAntitone(num)
    ensures svg == SvgDocument(MapOf(points, num, fetch), num)
  {
    var b := BoundsOf(points);
    var finalZoom: nat := FinalZoom(b, num).n;
    var box := PixelBoxOf(b, finalZoom, num);
    var view := ViewportOf(box);
    var range := TileRangeOf(view);
    var tileImages := FetchTiles(range, finalZoom, fetch);
    var pathD := BuildPath(PixelsOf(points, finalZoom, num), num);
    svg := SvgDocument(MapDrawing(finalZoom, view, range, tileImages, pathD), num);
  }
}
