/** The frontmatter rules of the site's collections that are more than a
    type check: the `draft` flag read from a string, the link rules of
    writings, and the numeric bounds of hikes. Each check returns the
    issues it would add, in the order it adds them. */
module ContentConfig {
  import opened Common
  import opened Text
  import opened Frontmatter

  // ---------------------------------------------------------------------------
  // draft

  /** Upper-case form of an ASCII lower-case letter. */
  function UpperChar(c: char): (d: char)
    requires 'a' <= c <= 'z'
    ensures 'A' <= d <= 'Z' && LowerChar(d) == c
  {
    (c as int - 32) as char
  }

  /** `draft`: absent means `false`; a string equal to "true" or "false" when
      lower-cased is read as that boolean; any other value must already be a
      boolean. */
  function ParseDraft(v: Option<Value>): (r: Result<bool>)
    ensures v.None? ==> r == Success(false)
    ensures r.Success? && v.Some? ==>
      v.value == Bool(r.value)
      || (v.value.Str? && ToLowerAscii(v.value.s) == if r.value then "true" else "false")
    ensures v.Some? && v.value.Bool? ==> r == Success(v.value.b)
    ensures v.Some? && v.value.Str? ==>
      (r.Success? <==> ToLowerAscii(v.value.s) == "true" || ToLowerAscii(v.value.s) == "false")
    ensures v.Some? && !v.value.Str? && !v.value.Bool? ==> r.Failure?
  {
    match v
    case None => Success(false)
    case Some(val) =>
      var pre :=
        if val.Str? && ToLowerAscii(val.s) == "true" then Bool(true)
        else if val.Str? && ToLowerAscii(val.s) == "false" then Bool(false)
        else val;
      if pre.Bool? then Success(pre.b) else Failure("Expected boolean")
  }

  /** Lower-casing gives the lower-case word `w` exactly when every letter is
      that of `w`, in either case. */
  lemma LowerEqualsIff(s: string, w: string)
    requires forall i :: 0 <= i < |w| ==> 'a' <= w[i] <= 'z'
    ensures ToLowerAscii(s) == w <==>
      |s| == |w| && forall i :: 0 <= i < |s| ==> s[i] == w[i] || s[i] == UpperChar(w[i])
  {
    if |s| == |w| && forall i :: 0 <= i < |s| ==> s[i] == w[i] || s[i] == UpperChar(w[i]) {
      assert forall i :: 0 <= i < |s| ==> ToLowerAscii(s)[i] == w[i];
    }
  }

  /** "True", "TRUE" and "false" are read as booleans. */
  lemma DraftSpellings()
    ensures ParseDraft(Some(Str("True"))) == Success(true)
    ensures ParseDraft(Some(Str("TRUE"))) == Success(true)
    ensures ParseDraft(Some(Str("false"))) == Success(false)
    ensures ParseDraft(Some(Str("yes"))).Failure?
  {
    LowerEqualsIff("True", "true");
    LowerEqualsIff("TRUE", "true");
    LowerEqualsIff("false", "false");
    LowerEqualsIff("yes", "true");
    LowerEqualsIff("yes", "false");
  }

  // ---------------------------------------------------------------------------
  // writings

  /** An issue added by a refinement: the field it is about and its message. */
  datatype Issue = Issue(path: string, message: string)

  const UrlRequired: string := "URL is required when linked is true"
  const ReadTimeRequired: string := "Read time is required when linked is true"
  const UrlForbidden: string := "URL must be null/empty when linked is false"
  const ReadTimeForbidden: string := "Read time must be null/empty when linked is false"

  /** The fields of a writing the refinement reads; `None` is `null` or
      absent, and `linked` is already defaulted to `false`. */
  datatype WritingLink = WritingLink(linked: bool, url: Option<string>, readingTime: Option<real>)

  /** JavaScript truthiness of the two optional fields. */
  predicate HasUrl(w: WritingLink) { w.url.Some? && w.url.value != "" }
  predicate HasReadingTime(w: WritingLink) { w.readingTime.Some? && w.readingTime.value != 0.0 }

  /** The `superRefine` of writings. */
  function WritingIssues(w: WritingLink): (r: seq<Issue>)
    ensures |r| <= 2
    ensures r == [] <==> (w.linked <==> HasUrl(w)) && (w.linked <==> HasReadingTime(w))
    ensures (exists i :: 0 <= i < |r| && r[i].path == "url") <==> (w.linked != HasUrl(w))
    ensures (exists i :: 0 <= i < |r| && r[i].path == "readingTime") <==> (w.linked != HasReadingTime(w))
    ensures forall i :: 0 <= i < |r| ==>
      r[i].message == (if r[i].path == "url" then (if w.linked then UrlRequired else UrlForbidden)
                       else if w.linked then ReadTimeRequired else ReadTimeForbidden)
    ensures |r| == 2 ==> r[0].path == "url" && r[1].path == "readingTime"
  {
    var urlIssue := if w.linked then
        (if !HasUrl(w) then [Issue("url", UrlRequired)] else [])
      else if HasUrl(w) then [Issue("url", UrlForbidden)] else [];
    var timeIssue := if w.linked then
        (if !HasReadingTime(w) then [Issue("readingTime", ReadTimeRequired)] else [])
      else if HasReadingTime(w) then [Issue("readingTime", ReadTimeForbidden)] else [];
    var r := urlIssue + timeIssue;
    assert "url" != "readingTime" by { assert "url"[0] != "readingTime"[0]; }
    assert urlIssue != [] ==> r[0].path == "url";
    assert timeIssue != [] ==> r[|r| - 1].path == "readingTime";
    r
  }

  /** A reading time of 0 counts as missing: a linked writing with it is
      refused. */
  lemma ZeroReadingTimeIsMissing(url: string)
    requires url != ""
    ensures WritingIssues(WritingLink(true, Some(url), Some(0.0))) == [Issue("readingTime", ReadTimeRequired)]
  {
  }

  // ---------------------------------------------------------------------------
  // hikes

  /** `Number.isInteger`. */
  predicate IsInteger(x: real) { x == x.Floor as real }

  const Difficulties: seq<string> := ["Easy", "Medium", "Hard"]

  /** The fields of a hike with bounds, as numbers and a string. */
  datatype HikeBounds = HikeBounds(count: real, difficulty: string, feedback: real)

  /** The fields whose checks fail, one per failed check, in schema order:
      `count` is an integer of at least 1, `difficulty` one of the three
      levels, `feedback` an integer from 1 to 5. */
  function HikeIssues(h: HikeBounds): (r: seq<string>)
    ensures r == [] <==>
      && IsInteger(h.count) && h.count >= 1.0
      && h.difficulty in Difficulties
      && IsInteger(h.feedback) && 1.0 <= h.feedback <= 5.0
    ensures forall i :: 0 <= i < |r| ==> r[i] in ["count", "difficulty", "feedback"]
    ensures |r| <= 6
  {
    (if IsInteger(h.count) then [] else ["count"])
    + (if h.count >= 1.0 then [] else ["count"])
    + (if h.difficulty in Difficulties then [] else ["difficulty"])
    + (if IsInteger(h.feedback) then [] else ["feedback"])
    + (if h.feedback >= 1.0 then [] else ["feedback"])
    + (if h.feedback <= 5.0 then [] else ["feedback"])
  }

  /** A valid feedback is one of 1, 2, 3, 4, 5. */
  lemma ValidFeedback(h: HikeBounds)
    requires HikeIssues(h) == []
    ensures h.feedback.Floor in {1, 2, 3, 4, 5} && h.feedback == h.feedback.Floor as real
    ensures h.count.Floor >= 1 && h.count == h.count.Floor as real
  {
  }
}
