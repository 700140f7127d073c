/** The `save-global-stats` command: it reads every hike, book and waypoint
    entry and aggregates them into the site-wide statistics object. The
    reading of files is replaced by the entries' parsed frontmatter. */
module GlobalStats {
  import opened Common
  import opened Text
  import opened Seqs
  import opened Frontmatter
  import opened Paths
  import opened GpxStats

  // ---------------------------------------------------------------------------
  // parseTime: the inverse of formatDuration

  /** End of the maximal run of decimal digits that starts at `i`. */
  function DigitRunEnd(s: string, i: nat): (j: nat)
    requires i <= |s|
    ensures i <= j <= |s|
    ensures forall k :: i <= k < j ==> IsDigit(s[k])
    ensures j < |s| ==> !IsDigit(s[j])
    decreases |s| - i
  {
    if i < |s| && IsDigit(s[i]) then DigitRunEnd(s, i + 1) else i
  }

  /** The regular expression `/(\d+)u/` matches at index `i`, for a unit
      letter `u` that is not a digit: greedy `\d+` takes the whole digit run
      starting there, and giving digits back cannot bring a `u` into place. */
  predicate MatchesAt(s: string, unit: char, i: nat)
    requires i <= |s|
  {
    i < |s| && IsDigit(s[i]) && DigitRunEnd(s, i) < |s| && s[DigitRunEnd(s, i)] == unit
  }

  /** The leftmost index at or after `i` where the expression matches, or -1. */
  function FirstMatchFrom(s: string, unit: char, i: nat): (r: int)
    requires i <= |s|
    ensures r == -1 || i <= r < |s|
    ensures r == -1 <==> forall k :: i <= k < |s| ==> !MatchesAt(s, unit, k)
    ensures r >= 0 ==> MatchesAt(s, unit, r) && forall k :: i <= k < r ==> !MatchesAt(s, unit, k)
    decreases |s| - i
  {
    if i == |s| then -1
    else if MatchesAt(s, unit, i) then i
    else FirstMatchFrom(s, unit, i + 1)
  }

  /** The first group of `s.match(/(\d+)u/)`, `None` standing for `null`. */
  function Capture(s: string, unit: char): (g: Option<string>)
    ensures g.Some? ==> g.value != [] && AllDigits(g.value)
  {
    var k := FirstMatchFrom(s, unit, 0);
    if k < 0 then None else Some(s[k..DigitRunEnd(s, k)])
  }

  /** `match ? parseInt(match[1] || "0", 10) : 0`. */
  function UnitValue(s: string, unit: char): (r: nat)
    ensures Capture(s, unit).None? ==> r == 0
    ensures Capture(s, unit).Some? ==> r == DigitsValue(Capture(s, unit).value)
  {
    match Capture(s, unit)
    case None => 0
    case Some(g) =>
      ParseIntOfDigits(g);
      ParseInt(g).value
  }

  /** `parseTime(timeStr)` on a string, in minutes: 0 for the empty string,
      otherwise sixty per hour of the first "<digits>h" plus the minutes of
      the first "<digits>m", each 0 when absent. */
  function ParseTimeString(s: string): (r: nat)
    ensures s == "" ==> r == 0
    ensures UnitValue(s, 'm') < 60 ==> r / 60 == UnitValue(s, 'h') && r % 60 == UnitValue(s, 'm')
  {
    if s == "" then 0 else UnitValue(s, 'h') * 60 + UnitValue(s, 'm')
  }

  /** `parseTime(timeStr)` on a frontmatter value. It returns 0 for a falsy
      value, and `None` when it throws: `timeStr.match` is not a function on
      a truthy value that is not a string. */
  function ParseTime(v: Option<Value>): (r: Option<nat>)
    ensures r.None? <==> Truthy(v) && !v.value.Str?
  {
    match v
    case Some(Str(s)) => Some(ParseTimeString(s))
    case _ => if Truthy(v) then None else Some(0)
  }

  /** A missing time, or a string with no digits at all such as "N/A",
      parses to 0 minutes. */
  lemma ParseTimeWithoutDigits(v: Option<Value>)
    requires v.None? || (v.value.Str? && forall i :: 0 <= i < |v.value.s| ==> !IsDigit(v.value.s[i]))
    ensures ParseTime(v) == Some(0)
  {
    if v.Some? && v.value.s != [] {
      var s := v.value.s;
      assert FirstMatchFrom(s, 'h', 0) == -1 && FirstMatchFrom(s, 'm', 0) == -1;
    }
  }

  /** The digit run at `i` ends at `j` when the digits stop there. */
  lemma DigitRunEndAt(s: string, i: nat, j: nat)
    requires i <= j <= |s|
    requires forall k :: i <= k < j ==> IsDigit(s[k])
    requires j < |s| ==> !IsDigit(s[j])
    ensures DigitRunEnd(s, i) == j
  {
  }

  /** In "<a>h <b>m" the hours group is `a` ... */
  lemma CaptureHours(a: string, b: string)
    requires a != [] && AllDigits(a)
    ensures Capture(a + "h " + b + "m", 'h') == Some(a)
  {
    var s := a + "h " + b + "m";
    var n := |a|;
    assert s[n] == 'h';
    assert forall k :: 0 <= k < n ==> s[k] == a[k];
    DigitRunEndAt(s, 0, n);
    assert MatchesAt(s, 'h', 0);
    assert s[0..n] == a;
  }

  /** ... and the minutes group is `b`: no match starts before it ... */
  lemma CaptureMinutes(a: string, b: string)
    requires AllDigits(a) && b != [] && AllDigits(b)
    ensures Capture(a + "h " + b + "m", 'm') == Some(b)
  {
    var s := a + "h " + b + "m";
    var n := |a|;
    forall k | 0 <= k < n + 2
      ensures !MatchesAt(s, 'm', k)
    {
      NoMinutesMatchBefore(a, b, k);
    }
    MinutesMatch(a, b);
    assert FirstMatchFrom(s, 'm', 0) == n + 2;
  }

  lemma NoMinutesMatchBefore(a: string, b: string, k: nat)
    requires AllDigits(a) && k < |a| + 2
    ensures !MatchesAt(a + "h " + b + "m", 'm', k)
  {
    var s := a + "h " + b + "m";
    var n := |a|;
    assert s[n] == 'h' && s[n + 1] == ' ';
    if k < n {
      assert forall i :: k <= i < n ==> s[i] == a[i];
      DigitRunEndAt(s, k, n);
    }
  }

  /** ... and one starts right after the space, capturing `b`. */
  lemma MinutesMatch(a: string, b: string)
    requires b != [] && AllDigits(b)
    ensures var s := a + "h " + b + "m";
      && MatchesAt(s, 'm', |a| + 2)
      && s[|a| + 2..DigitRunEnd(s, |a| + 2)] == b
  {
    var s := a + "h " + b + "m";
    var n := |a|;
    assert s == (a + "h ") + (b + "m");
    assert s[n + 2..] == b + "m";
    forall k | n + 2 <= k < n + 2 + |b|
      ensures IsDigit(s[k])
    {
      assert s[k] == b[k - (n + 2)];
    }
    assert s[n + 2 + |b|] == 'm';
    DigitRunEndAt(s, n + 2, n + 2 + |b|);
    assert s[n + 2..n + 2 + |b|] == b;
  }

  /** The value of a captured group is the value of its digits. */
  lemma UnitValueOf(s: string, unit: char, g: string)
    requires Capture(s, unit) == Some(g)
    ensures UnitValue(s, unit) == DigitsValue(g)
  {
    ParseIntOfDigits(g);
  }

  /** `parseTime` reads back the hours and the minutes of "<a>h <b>m". */
  lemma HoursMinutesValues(a: nat, b: nat)
    ensures UnitValue(NatToString(a) + "h " + NatToString(b) + "m", 'h') == a
    ensures UnitValue(NatToString(a) + "h " + NatToString(b) + "m", 'm') == b
  {
    var s := NatToString(a) + "h " + NatToString(b) + "m";
    CaptureHours(NatToString(a), NatToString(b));
    CaptureMinutes(NatToString(a), NatToString(b));
    UnitValueOf(s, 'h', NatToString(a));
    UnitValueOf(s, 'm', NatToString(b));
    NatToStringValue(a);
    NatToStringValue(b);
  }

  /** `parseTime("<a>h <b>m")` is `a * 60 + b`. */
  lemma ParseTimeOfHoursMinutes(a: nat, b: nat)
    ensures ParseTimeString(NatToString(a) + "h " + NatToString(b) + "m") == a * 60 + b
  {
    HoursMinutesValues(a, b);
  }

  /** Whole hours times sixty plus the remaining whole minutes is the number
      of whole minutes. */
  lemma MinutesOfMilliseconds(ms: nat)
    ensures (ms / 3600000) * 60 + (ms % 3600000) / 60000 == ms / 60000
  {
    var h, r := ms / 3600000, ms % 3600000;
    var m, r2 := r / 60000, r % 60000;
    assert ms == 3600000 * h + r;
    assert r == 60000 * m + r2;
    assert ms == 60000 * (h * 60 + m) + r2;
  }

  /** Round trip: `parseTime(formatDuration(ms))` is the number of whole
      minutes in a positive duration, and 0 for the "N/A" of any other. */
  lemma ParseFormattedDuration(ms: int)
    ensures ParseTimeString(FormatDuration(ms)) == if ms > 0 then ms / 60000 else 0
  {
    if ms > 0 {
      ParseTimeOfHoursMinutes(ms / 3600000, (ms % 3600000) / 60000);
      MinutesOfMilliseconds(ms);
    } else {
      var s := FormatDuration(ms);
      assert s == "N/A";
      assert !IsDigit(s[0]) && !IsDigit(s[1]) && !IsDigit(s[2]);
      ParseTimeWithoutDigits(Some(Str(s)));
    }
  }

  /** `${Math.floor(total / 60)}h ${total % 60}m`: the minutes group is under
      sixty, and `parseTime` reads the total back. */
  function TimeString(total: nat): (s: string)
    ensures UnitValue(s, 'h') == total / 60 && UnitValue(s, 'm') == total % 60 < 60
    ensures ParseTimeString(s) == total
  {
    HoursMinutesValues(total / 60, total % 60);
    NatToString(total / 60) + "h " + NatToString(total % 60) + "m"
  }

  // ---------------------------------------------------------------------------
  // Hikes

  datatype HikeData = HikeData(
    title: Option<Value>,
    date: int,         // `date.getTime()`, in milliseconds
    slept: bool,
    slug: string,
    distance: real,
    gain: real,
    movingTime: nat)   // minutes

  /** The conversions the command applies through the JavaScript runtime:
      `new Date(v).getTime()`, `parseFloat(v) || 0` and `Number(v) || 0`. */
  datatype Readers = Readers(
    date: Option<Value> -> int,
    float: Option<Value> -> real,
    number: Option<Value> -> real)

  /** The `HikeData` read from one hike file, `None` when `parseTime` throws. */
  function HikeOf(filePath: string, data: Entries, rd: Readers): (r: Option<HikeData>)
    ensures r.None? <==> Truthy(Get(data, "movingTime")) && !Get(data, "movingTime").value.Str?
    ensures r.Some? ==>
      && (r.value.slept <==> Get(data, "slept") == Some(Bool(true)))
      && '/' !in r.value.slug
      && r.value.movingTime == ParseTime(Get(data, "movingTime")).value
  {
    var t := ParseTime(Get(data, "movingTime"));
    if t.None? then None
    else Some(HikeData(
      Get(data, "title"),
      rd.date(Get(data, "publishedOn")),
      Get(data, "slept") == Some(Bool(true)),
      BasenameWithout(filePath, ".mdx"),
      rd.float(Get(data, "distance")),
      rd.number(Get(data, "gain")),
      t.value))
  }

  /** `Promise.all` over `f` applied to each element: every result in order,
      or `None` as soon as one of them fails. */
  function AllOf<T, U>(xs: seq<T>, f: T -> Option<U>): (r: Option<seq<U>>)
    ensures r.None? <==> exists i :: 0 <= i < |xs| && f(xs[i]).None?
    ensures r.Some? ==>
      && |r.value| == |xs|
      && forall i :: 0 <= i < |xs| ==> f(xs[i]) == Some(r.value[i])
    decreases |xs|
  {
    if xs == [] then Some([])
    else
      var h := f(xs[0]);
      var rest := AllOf(xs[1..], f);
      assert forall i :: 1 <= i < |xs| ==> xs[i] == xs[1..][i - 1];
      if h.None? || rest.None? then None else Some([h.value] + rest.value)
  }

  /** `Promise.all` over the hike files: every file's `HikeData` in order, or
      `None` as soon as one of them throws. */
  function HikesOf(files: seq<(string, Entries)>, rd: Readers): (r: Option<seq<HikeData>>)
    ensures r.None? <==> exists i :: 0 <= i < |files| && HikeOf(files[i].0, files[i].1, rd).None?
    ensures r.Some? ==>
      && |r.value| == |files|
      && forall i :: 0 <= i < |files| ==> HikeOf(files[i].0, files[i].1, rd) == Some(r.value[i])
  {
    AllOf(files, (file: (string, Entries)) => HikeOf(file.0, file.1, rd))
  }

  predicate SortedByDateDesc(s: seq<HikeData>)
  {
    forall p, q :: 0 <= p < q < |s| ==> s[p].date >= s[q].date
  }

  /** `hikes.sort((a, b) => b.date.getTime() - a.date.getTime())`: latest
      first, as an insertion sort. */
  method SortByDateDesc(a: array<HikeData>)
    modifies a
    ensures SortedByDateDesc(a[..])
    ensures multiset(a[..]) == old(multiset(a[..]))
  {
    var i := 0;
    while i < a.Length
      invariant 0 <= i <= a.Length
      invariant forall p, q :: 0 <= p < q < i ==> a[p].date >= a[q].date
      invariant multiset(a[..]) == old(multiset(a[..]))
    {
      InsertIntoSorted(a, i);
      i := i + 1;
    }
  }

  /** One step of the sort: `a[i]` is swapped leftwards past every earlier
      hike with a strictly earlier date, so equal dates keep their order. */
  method InsertIntoSorted(a: array<HikeData>, i: nat)
    requires i < a.Length
    requires forall p, q :: 0 <= p < q < i ==> a[p].date >= a[q].date
    modifies a
    ensures forall p, q :: 0 <= p < q <= i ==> a[p].date >= a[q].date
    ensures multiset(a[..]) == old(multiset(a[..]))
  {
    var j := i;
    while j > 0 && a[j - 1].date < a[j].date
      invariant 0 <= j <= i
      invariant forall p, q :: 0 <= p < q <= i && p != j && q != j ==> a[p].date >= a[q].date
      invariant forall q :: j < q <= i ==> a[q].date < a[j].date
      invariant multiset(a[..]) == old(multiset(a[..]))
    {
      Swap(a, j - 1, j);
      j := j - 1;
    }
  }

  /** Exchanges two hikes of the array. */
  method Swap(a: array<HikeData>, i: nat, j: nat)
    requires i < j < a.Length
    modifies a
    ensures a[i] == old(a[j]) && a[j] == old(a[i])
    ensures forall k :: 0 <= k < a.Length && k != i && k != j ==> a[k] == old(a[k])
    ensures multiset(a[..]) == old(multiset(a[..]))
  {
    a[i], a[j] := a[j], a[i];
  }

  datatype LatestHike = LatestHike(title: Option<Value>, date: int, slug: string)

  datatype HikeTotals = HikeTotals(total: nat, distance: string, elevation: string, time: string)

  datatype HikeSummary = HikeSummary(latestHike: Option<LatestHike>, sleptNights: nat, hikes: HikeTotals)

  function Latest(h: HikeData): LatestHike
  {
    LatestHike(h.title, h.date, h.slug)
  }

  predicate Slept(h: HikeData) { h.slept }

  function Distance(h: HikeData): real { h.distance }

  function Gain(h: HikeData): real { h.gain }

  function MovingMinutes(h: HikeData): int { h.movingTime }

  lemma {:induction false} MinutesNonNegative(hs: seq<HikeData>)
    ensures Sum(hs, MovingMinutes) >= 0
    decreases |hs|
  {
    if hs != [] {
      MinutesNonNegative(hs[1..]);
    }
  }

  /** The `hikes` totals: count, rounded distance in km, elevation gain as
      `toLocaleString` renders it, and the moving time in hours and minutes. */
  function Totals(hs: seq<HikeData>, localeString: real -> string): (r: HikeTotals)
    ensures r.total == |hs|
    ensures ParseTimeString(r.time) == Sum(hs, MovingMinutes)
    ensures EndsWith(r.distance, " km") && EndsWith(r.elevation, " m")
  {
    MinutesNonNegative(hs);
    HikeTotals(
      |hs|,
      IntToString(Round(SumReal(hs, Distance))) + " km",
      localeString(SumReal(hs, Gain)) + " m",
      TimeString(Sum(hs, MovingMinutes)))
  }

  /** Nothing is counted exactly when no element satisfies the predicate. */
  lemma CountZero<T>(s: seq<T>, p: T -> bool)
    ensures Count(s, p) == 0 <==> forall x :: x in s ==> !p(x)
  {
    if Count(s, p) != 0 {
      assert Filter(s, p)[0] in s;
    }
  }

  /** The result of `getHikeStats` for the hikes in their sorted order. */
  function Summary(sorted: seq<HikeData>, localeString: real -> string): (r: HikeSummary)
    ensures 3 <= r.sleptNights <= |sorted| + 3
    ensures r.hikes.total == |sorted|
    ensures r.latestHike.None? <==> sorted == []
  {
    HikeSummary(
      if sorted == [] then None else Some(Latest(sorted[0])),
      Count(sorted, Slept) + 3,
      Totals(sorted, localeString))
  }

  /** The totals do not depend on the order the hikes are listed in. */
  lemma TotalsPermutation(s: seq<HikeData>, t: seq<HikeData>, localeString: real -> string)
    requires multiset(s) == multiset(t)
    ensures Totals(s, localeString) == Totals(t, localeString)
    ensures Count(s, Slept) == Count(t, Slept)
  {
    assert |s| == |multiset(s)| == |multiset(t)| == |t|;
    SumRealPermutation(s, t, Distance);
    SumRealPermutation(s, t, Gain);
    SumPermutation(s, t, MovingMinutes);
    CountPermutation(s, t, Slept);
  }

  /** `getHikeStats()`. It fails when reading some hike throws; otherwise the
      latest hike is one with the greatest date, and it is absent only when
      there are no hikes. */
  method GetHikeStats(files: seq<(string, Entries)>, rd: Readers, localeString: real -> string)
    returns (r: Result<HikeSummary>)
    ensures r.Failure? <==> HikesOf(files, rd).None?
    ensures r.Failure? ==> r.message == "timeStr.match is not a function"
    ensures r.Success? ==>
      var hs := HikesOf(files, rd).value;
      && r.value.sleptNights == Count(hs, Slept) + 3
      && r.value.hikes == Totals(hs, localeString)
      && (r.value.latestHike.None? <==> hs == [])
      && (r.value.latestHike.Some? ==>
            exists h :: h in hs && Latest(h) == r.value.latestHike.value
                        && forall g :: g in hs ==> g.date <= h.date)
  {
    var read := HikesOf(files, rd);
    if read.None? {
      return Failure("timeStr.match is not a function");
    }
    var hs := read.value;
    var hikes := new HikeData[|hs|](i requires 0 <= i < |hs| => hs[i]);
    assert hikes[..] == hs;
    SortByDateDesc(hikes);
    var sorted := hikes[..];
    TotalsPermutation(sorted, hs, localeString);
    if sorted != [] {
      LatestIsGreatest(sorted, hs);
    }
    r := Success(Summary(sorted, localeString));
  }

  /** The first of the sorted hikes is a hike of the input with the greatest date. */
  lemma LatestIsGreatest(sorted: seq<HikeData>, hs: seq<HikeData>)
    requires sorted != [] && SortedByDateDesc(sorted) && multiset(sorted) == multiset(hs)
    ensures sorted[0] in hs && forall g :: g in hs ==> g.date <= sorted[0].date
  {
    assert sorted[0] in multiset(sorted);
    forall g | g in hs
      ensures g.date <= sorted[0].date
    {
      assert g in multiset(hs);
      var k :| 0 <= k < |sorted| && sorted[k] == g;
    }
  }

  // ---------------------------------------------------------------------------
  // Books

  datatype BookData = BookData(completed: bool, highlightCount: nat)

  /** A highlight is a body line that starts with "- " once trimmed. */
  predicate IsHighlight(line: string)
  {
    StartsWith(Trim(line), "- ")
  }

  function HighlightCount(body: string): (r: nat)
    ensures r <= |Split(body, '\n')|
    ensures r == 0 <==> forall line :: line in Split(body, '\n') ==> !IsHighlight(line)
  {
    CountZero(Split(body, '\n'), IsHighlight);
    Count(Split(body, '\n'), IsHighlight)
  }

  /** The highlights of two texts joined by a line break add up. */
  lemma HighlightCountAppend(a: string, b: string)
    ensures HighlightCount(a + "\n" + b) == HighlightCount(a) + HighlightCount(b)
  {
    SplitAppend(a, b, '\n');
    FilterAppend(Split(a, '\n'), Split(b, '\n'), IsHighlight);
  }

  /** `completed: data.completed || false`, which keeps the value's truthiness. */
  function BookOf(doc: Document): (r: BookData)
    ensures Get(doc.data, "completed").None? ==> !r.completed
    ensures Get(doc.data, "completed") == Some(Bool(true)) ==> r.completed
    ensures Get(doc.data, "completed") == Some(Str("")) ==> !r.completed
    ensures r.highlightCount == 0 <==> forall line :: line in Split(doc.body, '\n') ==> !IsHighlight(line)
  {
    BookData(Truthy(Get(doc.data, "completed")), HighlightCount(doc.body))
  }

  predicate IsCompleted(b: BookData) { b.completed }

  predicate IsReading(b: BookData) { !b.completed }

  function Highlights(b: BookData): int { b.highlightCount }

  datatype BookStats = BookStats(total: nat, completed: nat, reading: nat, highlights: int)

  /** `getBookStats()`: every book is either completed or being read. */
  function BookStatsOf(docs: seq<Document>): (st: BookStats)
    ensures st.completed + st.reading == st.total == |docs|
  {
    var books := seq(|docs|, i requires 0 <= i < |docs| => BookOf(docs[i]));
    CountSplit(books, IsCompleted, IsReading);
    BookStats(|books|, Count(books, IsCompleted), Count(books, IsReading), Sum(books, Highlights))
  }

  // ---------------------------------------------------------------------------
  // Waypoints

  predicate IsSketch(data: Entries) { Get(data, "status") == Some(Str("sketch")) }

  predicate IsSurveying(data: Entries) { Get(data, "status") == Some(Str("surveying")) }

  predicate IsCharted(data: Entries) { Get(data, "status") == Some(Str("charted")) }

  datatype WaypointStats = WaypointStats(total: nat, sketch: nat, surveying: nat, charted: nat)

  /** `getWaypointStats()`: the three status counts never exceed the total,
      and reach it exactly when every waypoint has one of the three statuses. */
  function WaypointStatsOf(waypoints: seq<Entries>): (st: WaypointStats)
    ensures st.total == |waypoints|
    ensures st.sketch + st.surveying + st.charted <= st.total
    ensures st.sketch + st.surveying + st.charted == st.total <==>
      forall i :: 0 <= i < |waypoints| ==>
        IsSketch(waypoints[i]) || IsSurveying(waypoints[i]) || IsCharted(waypoints[i])
  {
    CountThree(waypoints, IsSketch, IsSurveying, IsCharted);
    WaypointStats(|waypoints|, Count(waypoints, IsSketch), Count(waypoints, IsSurveying),
                  Count(waypoints, IsCharted))
  }
}
