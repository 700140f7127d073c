/** Trip statistics of a GPX track (src/lib/zendo/transformers/extractDataFromGPX.ts):
    the elevation smoother, the dead-band gain/loss accumulator, the statistics
    loop of `calculateStats`, and `formatDuration`. */
module GpxStats {
  import opened Common
  import opened Text

  /** One `trkpt` of a GPX 1.1 track: degrees, metres, and the timestamp in
      milliseconds since the epoch when a `time` element is present. */
  datatype Point = Point(lat: real, lon: real, ele: real, time: Option<int>)

  /** The floating-point operations this model does not compute, given as
      functions: the haversine great-circle distance in km (Earth radius
      6371 km), the Web-Mercator world y in [0, 1] of a latitude,
      floor(log2(x)) for x > 0, `Number.prototype.toFixed(2)`, and the
      default number-to-string conversion. */
  datatype Numerics = Numerics(
    haversine: (Point, Point) -> real,
    mercatorY: real -> real,
    floorLog2: real -> int,
    toFixed2: real -> string,
    numberToString: real -> string)

  const SmoothingWindow: nat := 5
  const ElevationThreshold: real := 2.0

  function Elevations(points: seq<Point>): (eles: seq<real>)
    ensures |eles| == |points|
    ensures forall i :: 0 <= i < |points| ==> eles[i] == points[i].ele
  {
    seq(|points|, i requires 0 <= i < |points| => points[i].ele)
  }

  // ---------------------------------------------------------------------------
  // Elevation smoother (`smoothElevations`)

  /** Left-to-right sum of the samples in [lo, hi), as
      `reduce((sum, x) => sum + x, 0)` computes it over the window. */
  function WindowSum(s: seq<real>, lo: nat, hi: nat): real
    requires lo <= hi <= |s|
    decreases hi - lo
  {
    if lo == hi then 0.0 else WindowSum(s, lo, hi - 1) + s[hi - 1]
  }

  function WindowMean(s: seq<real>, lo: nat, hi: nat): real
    requires lo < hi <= |s|
  {
    WindowSum(s, lo, hi) / ((hi - lo) as real)
  }

  function WindowStart(i: nat, half: nat): nat
  {
    if i >= half then i - half else 0
  }

  function WindowEnd(n: nat, i: nat, half: nat): nat
  {
    if i + half + 1 <= n then i + half + 1 else n
  }

  /** Centred moving average, truncated at both ends: sample i is the mean of
      the samples in [max(0, i - w/2), min(n, i + w/2 + 1)). */
  function Smooth(eles: seq<real>, windowSize: nat): (r: seq<real>)
    ensures |r| == |eles|
  {
    seq(|eles|, i requires 0 <= i < |eles| => SmoothedAt(eles, windowSize / 2, i))
  }

  function SmoothedAt(eles: seq<real>, half: nat, i: nat): real
    requires i < |eles|
  {
    WindowMean(eles, WindowStart(i, half), WindowEnd(|eles|, i, half))
  }

  lemma {:induction false} WindowSumBounds(s: seq<real>, lo: nat, hi: nat, min: real, max: real)
    requires lo <= hi <= |s|
    requires forall j :: lo <= j < hi ==> min <= s[j] <= max
    ensures ((hi - lo) as real) * min <= WindowSum(s, lo, hi) <= ((hi - lo) as real) * max
    decreases hi - lo
  {
    if lo < hi {
      WindowSumBounds(s, lo, hi - 1, min, max);
      var n := (hi - 1 - lo) as real;
      assert ((hi - lo) as real) * min == n * min + min;
      assert ((hi - lo) as real) * max == n * max + max;
    }
  }

  /** The mean of a window lies between any bounds of its samples. */
  lemma WindowMeanBounds(s: seq<real>, lo: nat, hi: nat, min: real, max: real)
    requires lo < hi <= |s|
    requires forall j :: lo <= j < hi ==> min <= s[j] <= max
    ensures min <= WindowMean(s, lo, hi) <= max
  {
    WindowSumBounds(s, lo, hi, min, max);
    var n := (hi - lo) as real;
    assert WindowSum(s, lo, hi) / n >= (n * min) / n;
    assert WindowSum(s, lo, hi) / n <= (n * max) / n;
  }

  /** Smoothing never leaves the range of the raw samples: a smoothed value
      lies between the lowest and the highest recorded elevation. */
  lemma SmoothWithinRange(eles: seq<real>, windowSize: nat, min: real, max: real)
    requires forall j :: 0 <= j < |eles| ==> min <= eles[j] <= max
    ensures forall i :: 0 <= i < |eles| ==> min <= Smooth(eles, windowSize)[i] <= max
  {
    var r := Smooth(eles, windowSize);
    var half := windowSize / 2;
    forall i | 0 <= i < |eles|
      ensures min <= r[i] <= max
    {
      WindowMeanBounds(eles, WindowStart(i, half), WindowEnd(|eles|, i, half), min, max);
    }
  }

  /** A flat profile is left as it is. */
  lemma SmoothConstant(eles: seq<real>, windowSize: nat, c: real)
    requires forall j :: 0 <= j < |eles| ==> eles[j] == c
    ensures Smooth(eles, windowSize) == eles
  {
    SmoothWithinRange(eles, windowSize, c, c);
  }

  // ---------------------------------------------------------------------------
  // Dead-band accumulator

  /** The three running values of the gain/loss computation: committed gain,
      committed loss, and the change still inside the dead band
      (`accumulatedElevation`). */
  datatype DeadBand = DeadBand(gain: real, loss: real, pending: real)

  const Idle := DeadBand(0.0, 0.0, 0.0)

  function Abs(x: real): real { if x < 0.0 then -x else x }

  /** One segment: add the change to the pending amount, then flush it to gain
      above +2 m, flush its magnitude to loss below -2 m, or keep accumulating. */
  function DeadBandStep(d: DeadBand, diff: real): DeadBand
  {
    var acc := d.pending + diff;
    if acc > ElevationThreshold then DeadBand(d.gain + acc, d.loss, 0.0)
    else if acc < -ElevationThreshold then DeadBand(d.gain, d.loss + Abs(acc), 0.0)
    else DeadBand(d.gain, d.loss, acc)
  }

  /** A step leaves the pending amount inside the band, never lowers gain or
      loss, changes at most one of them, and conserves the net change:
      gain - loss + pending grows by exactly the segment's difference. */
  lemma DeadBandStepLaws(d: DeadBand, diff: real)
    ensures var r := DeadBandStep(d, diff);
      && -ElevationThreshold <= r.pending <= ElevationThreshold
      && r.gain >= d.gain && r.loss >= d.loss
      && r.gain - r.loss + r.pending == d.gain - d.loss + d.pending + diff
      && (r.gain > d.gain ==> d.pending + diff > ElevationThreshold && r.pending == 0.0 && r.loss == d.loss)
      && (r.loss > d.loss ==> d.pending + diff < -ElevationThreshold && r.pending == 0.0 && r.gain == d.gain)
  {
  }

  /** The accumulator after the segments between the first `k` samples of a
      smoothed profile. */
  function DeadBandOf(s: seq<real>, k: nat): DeadBand
    requires k <= |s|
  {
    if k < 2 then Idle else DeadBandStep(DeadBandOf(s, k - 1), s[k - 1] - s[k - 2])
  }

  /** After any number of segments: the pending amount is within the band,
      gain and loss are non-negative, and the net change telescopes:
      gain - loss + pending == last - first. */
  lemma {:induction false} DeadBandInvariant(s: seq<real>, k: nat)
    requires k <= |s|
    ensures var d := DeadBandOf(s, k);
      -ElevationThreshold <= d.pending <= ElevationThreshold && d.gain >= 0.0 && d.loss >= 0.0
    ensures k >= 1 ==> DeadBandOf(s, k).gain - DeadBandOf(s, k).loss + DeadBandOf(s, k).pending == s[k - 1] - s[0]
  {
    if k >= 2 {
      DeadBandInvariant(s, k - 1);
      DeadBandStepLaws(DeadBandOf(s, k - 1), s[k - 1] - s[k - 2]);
    }
  }

  /** Gain and loss only grow as the track goes on. */
  lemma {:induction false} DeadBandMonotone(s: seq<real>, j: nat, k: nat)
    requires j <= k <= |s|
    ensures DeadBandOf(s, j).gain <= DeadBandOf(s, k).gain
    ensures DeadBandOf(s, j).loss <= DeadBandOf(s, k).loss
    decreases k
  {
    if j < k {
      DeadBandMonotone(s, j, k - 1);
      if k >= 2 {
        DeadBandStepLaws(DeadBandOf(s, k - 1), s[k - 1] - s[k - 2]);
      }
    }
  }

  /** Noise is absorbed: a profile that never strays more than 2 m from its
      first sample yields no gain and no loss. */
  lemma {:induction false} DeadBandAbsorbsNoise(s: seq<real>, k: nat)
    requires 1 <= k <= |s|
    requires forall j :: 0 <= j < k ==> -ElevationThreshold <= s[j] - s[0] <= ElevationThreshold
    ensures DeadBandOf(s, k).gain == 0.0 && DeadBandOf(s, k).loss == 0.0
    ensures DeadBandOf(s, k).pending == s[k - 1] - s[0]
  {
    if k >= 2 {
      DeadBandAbsorbsNoise(s, k - 1);
    }
  }

  // ---------------------------------------------------------------------------
  // Per-segment quantities accumulated by `calculateStats`

  /** `point.time?.getTime() ?? 0`: a missing timestamp reads as 0 ms. */
  function TimeOrZero(p: Point): int
  {
    match p.time
    case Some(t) => t
    case None => 0
  }

  function TimeDelta(a: Point, b: Point): int
  {
    TimeOrZero(b) - TimeOrZero(a)
  }

  /** A segment counts towards moving time when its time delta is positive and
      its speed in m/s is strictly between 0.5 and 15. */
  predicate IsMoving(segmentKm: real, deltaMs: int)
  {
    deltaMs > 0 && 0.5 < Speed(segmentKm, deltaMs) < 15.0
  }

  /** Speed in m/s over a segment of `km` kilometres walked in `ms` milliseconds. */
  function Speed(km: real, ms: int): real
    requires ms > 0
  {
    (km * 1000.0) / ((ms as real) / 1000.0)
  }

  /** Sum of the distances of the segments between the first `k` points, in km. */
  function PathDistance(ps: seq<Point>, k: nat, num: Numerics): real
    requires k <= |ps|
  {
    if k < 2 then 0.0 else PathDistance(ps, k - 1, num) + num.haversine(ps[k - 2], ps[k - 1])
  }

  /** Sum of the positive time deltas between the first `k` points: the most
      moving time can be. */
  function PositiveTime(ps: seq<Point>, k: nat): (t: int)
    requires k <= |ps|
    ensures t >= 0
  {
    if k < 2 then 0
    else
      var dt := TimeDelta(ps[k - 2], ps[k - 1]);
      PositiveTime(ps, k - 1) + (if dt > 0 then dt else 0)
  }

  /** Moving time in ms over the first `k` points: the deltas of the segments
      that pass the speed filter. */
  function MovingTime(ps: seq<Point>, k: nat, num: Numerics): (t: int)
    requires k <= |ps|
    ensures 0 <= t <= PositiveTime(ps, k)
  {
    if k < 2 then 0
    else
      var a, b := ps[k - 2], ps[k - 1];
      MovingTime(ps, k - 1, num) + (if IsMoving(num.haversine(a, b), TimeDelta(a, b)) then TimeDelta(a, b) else 0)
  }

  /** `m` is one of the first `k` samples and no greater than any of them. */
  predicate IsMinimum(m: real, s: seq<real>, k: nat)
    requires k <= |s|
  {
    (exists j :: 0 <= j < k && s[j] == m) && forall j :: 0 <= j < k ==> m <= s[j]
  }

  predicate IsMaximum(m: real, s: seq<real>, k: nat)
    requires k <= |s|
  {
    (exists j :: 0 <= j < k && s[j] == m) && forall j :: 0 <= j < k ==> s[j] <= m
  }

  /** Running minimum and maximum of the first `k` samples, updated the way
      the loop updates them. */
  function RunningMin(s: seq<real>, k: nat): real
    requires 1 <= k <= |s|
  {
    if k == 1 then s[0] else
      var m := RunningMin(s, k - 1);
      if s[k - 1] < m then s[k - 1] else m
  }

  function RunningMax(s: seq<real>, k: nat): real
    requires 1 <= k <= |s|
  {
    if k == 1 then s[0] else
      var m := RunningMax(s, k - 1);
      if s[k - 1] > m then s[k - 1] else m
  }

  lemma {:induction false} RunningExtrema(s: seq<real>, k: nat)
    requires 1 <= k <= |s|
    ensures IsMinimum(RunningMin(s, k), s, k) && IsMaximum(RunningMax(s, k), s, k)
  {
    if k > 1 {
      RunningExtrema(s, k - 1);
    }
  }

  datatype TrailType = Loop | OutAndBack

  function TrailTypeLabel(t: TrailType): string
  {
    match t
    case Loop => "Loop"
    case OutAndBack => "A/R"
  }

  /** The values of `calculateStats` before they are rounded and formatted. */
  datatype RawStats = RawStats(
    distance: real,
    band: DeadBand,
    minEle: real,
    maxEle: real,
    movingTime: int,
    totalTime: int,
    trail: TrailType)

  /** What the segment loop carries from one point to the next. */
  datatype Totals = Totals(distance: real, band: DeadBand, minEle: real, maxEle: real, movingTime: int)

  /** The segment loop of `calculateStats` (lines 105-144), over the points
      and their smoothed elevations: distance, the dead-band accumulator,
      raw minimum and maximum elevation, and moving time. */
  method ScanSegments(points: seq<Point>, smoothed: seq<real>, num: Numerics) returns (t: Totals)
    requires |points| >= 1 && |smoothed| == |points|
    ensures t.distance == PathDistance(points, |points|, num)
    ensures t.band == DeadBandOf(smoothed, |points|)
    ensures t.minEle == RunningMin(Elevations(points), |points|)
    ensures t.maxEle == RunningMax(Elevations(points), |points|)
    ensures t.movingTime == MovingTime(points, |points|, num)
  {
    ghost var eles := Elevations(points);
    var distance := 0.0;
    var gain := 0.0;
    var loss := 0.0;
    var minEle := points[0].ele;
    var maxEle := points[0].ele;
    var movingTime := 0;
    var accumulatedElevation := 0.0;

    var i := 1;
    while i < |points|
      invariant 1 <= i <= |points|
      invariant distance == PathDistance(points, i, num)
      invariant DeadBand(gain, loss, accumulatedElevation) == DeadBandOf(smoothed, i)
      invariant minEle == RunningMin(eles, i) && maxEle == RunningMax(eles, i)
      invariant movingTime == MovingTime(points, i, num)
    {
      var previousPoint, currentPoint := points[i - 1], points[i];

      var segmentDistance := num.haversine(previousPoint, currentPoint);
      distance := distance + segmentDistance;

      var smoothedDiff := smoothed[i] - smoothed[i - 1];
      accumulatedElevation := accumulatedElevation + smoothedDiff;
      if accumulatedElevation > ElevationThreshold {
        gain := gain + accumulatedElevation;
        accumulatedElevation := 0.0;
      } else if accumulatedElevation < -ElevationThreshold {
        loss := loss + Abs(accumulatedElevation);
        accumulatedElevation := 0.0;
      }

      if currentPoint.ele < minEle { minEle := currentPoint.ele; }
      if currentPoint.ele > maxEle { maxEle := currentPoint.ele; }

      var timeDifference := TimeOrZero(currentPoint) - TimeOrZero(previousPoint);
      if timeDifference > 0 {
        var speed := Speed(segmentDistance, timeDifference);
        if speed > 0.5 && speed < 15.0 {
          movingTime := movingTime + timeDifference;
        }
      }
      i := i + 1;
    }
    t := Totals(distance, DeadBand(gain, loss, accumulatedElevation), minEle, maxEle, movingTime);
  }

  /** Whether a track whose ends are `ends` km apart, out of `distance` km in
      total, is a loop: its ends within 0.5 km, or within 5% of its length. */
  function TrailOf(ends: real, distance: real): (t: TrailType)
    ensures t == Loop <==> ends < 0.5 || ends < distance * 0.05
  {
    if ends < 0.5 || ends < distance * 0.05 then Loop else OutAndBack
  }

  /** The statistics of a non-empty track, stated on the whole point list.
      Gain and loss are never negative and the pending elevation stays within
      the ±2 m band, the accumulated change telescopes to the smoothed
      end-to-end difference, the elevation extremes are the raw minimum and
      maximum, moving time lies between 0 and the sum of positive time steps,
      and the trail is a loop exactly when its ends are close. */
  function TrackStats(points: seq<Point>, num: Numerics): (st: RawStats)
    requires |points| >= 1
    ensures var smoothed := Smooth(Elevations(points), SmoothingWindow);
      && st.band.gain >= 0.0 && st.band.loss >= 0.0
      && -ElevationThreshold <= st.band.pending <= ElevationThreshold
      && st.band.gain - st.band.loss + st.band.pending == smoothed[|points| - 1] - smoothed[0]
      && IsMinimum(st.minEle, Elevations(points), |points|)
      && IsMaximum(st.maxEle, Elevations(points), |points|)
      && st.minEle <= st.maxEle
      && 0 <= st.movingTime <= PositiveTime(points, |points|)
      && (st.trail == Loop <==>
            var ends := num.haversine(points[0], points[|points| - 1]);
            ends < 0.5 || ends < st.distance * 0.05)
  {
    var n := |points|;
    var smoothed := Smooth(Elevations(points), SmoothingWindow);
    DeadBandInvariant(smoothed, n);
    RunningExtrema(Elevations(points), n);
    var distance := PathDistance(points, n, num);
    RawStats(distance,
             DeadBandOf(smoothed, n),
             RunningMin(Elevations(points), n),
             RunningMax(Elevations(points), n),
             MovingTime(points, n, num),
             TimeDelta(points[0], points[n - 1]),
             TrailOf(num.haversine(points[0], points[n - 1]), distance))
  }

  /** `calculateStats` up to its final object literal: an empty track is an
      error; otherwise one pass over the segments of the track and its
      smoothed profile, then the loop/out-and-back test and the total time. */
  method CalculateStats(points: seq<Point>, num: Numerics) returns (r: Result<RawStats>)
    ensures points == [] <==> r.Failure?
    ensures r.Failure? ==> r.message == "No track points"
    ensures r.Success? ==> r.value == TrackStats(points, num)
  {
    if |points| == 0 {
      return Failure("No track points");
    }
    var smoothed := Smooth(Elevations(points), SmoothingWindow);
    var totals := ScanSegments(points, smoothed, num);

    var startPoint, endPoint := points[0], points[|points| - 1];
    var distanceStartToEnd := num.haversine(startPoint, endPoint);
    var trail := OutAndBack;
    if distanceStartToEnd < 0.5 || distanceStartToEnd < totals.distance * 0.05 {
      trail := Loop;
    }
    var totalTime := TimeOrZero(endPoint) - TimeOrZero(startPoint);
    r := Success(RawStats(totals.distance, totals.band, totals.minEle, totals.maxEle,
                          totals.movingTime, totalTime, trail));
  }

  // ---------------------------------------------------------------------------
  // Formatting of the returned statistics

  /** `Math.round`: the nearest integer, halves rounded up. */
  function Round(x: real): (n: int)
    ensures x - 0.5 < n as real <= x + 0.5
  {
    (x + 0.5).Floor
  }

  lemma RoundMonotone(x: real, y: real)
    ensures x <= y ==> Round(x) <= Round(y)
  {
  }

  /** `formatDuration`: "N/A" for a non-positive duration, otherwise whole
      hours and the remaining whole minutes, "<h>h <m>m". */
  function FormatDuration(ms: int): (s: string)
    ensures ms <= 0 <==> s == "N/A"
    ensures ms > 0 ==> s == NatToString(ms / 3600000) + "h " + NatToString((ms % 3600000) / 60000) + "m"
    ensures ms > 0 ==> (ms % 3600000) / 60000 < 60
  {
    if ms <= 0 then "N/A"
    else NatToString(ms / 3600000) + "h " + NatToString((ms % 3600000) / 60000) + "m"
  }

  /** The `HikeStats` object `calculateStats` returns. */
  datatype HikeStats = HikeStats(
    distance: string,
    gain: int,
    loss: int,
    maxEle: int,
    minEle: int,
    trailType: string,
    movingTime: string,
    totalTime: string)

  /** The final object literal of `calculateStats`: distance to two decimals,
      elevations rounded, durations formatted, trail type as its label. */
  function Report(st: RawStats, num: Numerics): (h: HikeStats)
    ensures st.band.gain >= 0.0 ==> h.gain >= 0
    ensures st.band.loss >= 0.0 ==> h.loss >= 0
    ensures st.minEle <= st.maxEle ==> h.minEle <= h.maxEle
    ensures h.trailType == "Loop" <==> st.trail == Loop
    ensures h.movingTime == "N/A" <==> st.movingTime <= 0
  {
    RoundMonotone(st.minEle, st.maxEle);
    HikeStats(
      num.toFixed2(st.distance),
      Round(st.band.gain),
      Round(st.band.loss),
      Round(st.maxEle),
      Round(st.minEle),
      TrailTypeLabel(st.trail),
      FormatDuration(st.movingTime),
      FormatDuration(st.totalTime))
  }
}
