/** The content sanitizer: it rewrites the "•" bullets and inline numbered
    items of pasted text into Markdown list items, tidies the spacing after
    list markers, collapses runs of blank lines and trims the body. Its
    regular expressions are modelled exactly, as left-to-right global
    replacement: at each position the match there (if any) is replaced and
    scanning resumes after it, otherwise one character is kept. */
module SanitizeContent {
  import opened Common
  import opened Text
  import opened Frontmatter

  const Bullet: char := '\U{2022}'

  predicate IsBlank(c: char) { c == ' ' || c == '\t' }
  predicate IsNewline(c: char) { c == '\n' }
  predicate IsMarkerChar(c: char) { c == '-' || c == '*' || c == '+' }

  /** Length of the longest prefix of `s` whose characters satisfy `p`. */
  function Run(s: string, p: char -> bool): (k: nat)
    ensures k <= |s|
    ensures forall i :: 0 <= i < k ==> p(s[i])
    ensures k < |s| ==> !p(s[k])
    decreases |s|
  {
    if s == [] || !p(s[0]) then 0 else 1 + Run(s[1..], p)
  }

  // ---------------------------------------------------------------------------
  // Global replacement

  /** `s.replace(re, rep)` for a global regular expression `re`: `at(prev, t)`
      is the length of the match of `re` at the start of the remaining input
      `t` (0 when none), where `prev` is the input character before it
      (`None` at the start); `rep` maps the matched text to its replacement. */
  function ReplaceAll(s: string, prev: Option<char>, at: (Option<char>, string) -> nat,
                      rep: string -> string): string
    decreases |s|
  {
    if s == [] then []
    else
      var n := at(prev, s);
      if 0 < n <= |s| then rep(s[..n]) + ReplaceAll(s[n..], Some(s[n - 1]), at, rep)
      else [s[0]] + ReplaceAll(s[1..], Some(s[0]), at, rep)
  }

  /** Where a match of length `n` starts, it is replaced and scanning
      resumes after it. */
  lemma ReplaceAllAtN(s: string, prev: Option<char>, at: (Option<char>, string) -> nat,
                      rep: string -> string, n: nat)
    requires at(prev, s) == n && 0 < n <= |s|
    ensures ReplaceAll(s, prev, at, rep) == rep(s[..n]) + ReplaceAll(s[n..], Some(s[n - 1]), at, rep)
  {
  }

  /** A match that spans exactly `pre` is replaced, and scanning resumes
      with `rest`. */
  lemma ReplaceAllAtParts(pre: string, rest: string, prev: Option<char>,
                          at: (Option<char>, string) -> nat, rep: string -> string)
    requires pre != [] && at(prev, pre + rest) == |pre|
    ensures ReplaceAll(pre + rest, prev, at, rep) == rep(pre) + ReplaceAll(rest, Some(pre[|pre| - 1]), at, rep)
  {
    var s := pre + rest;
    assert s[..|pre|] == pre && s[|pre|..] == rest && s[|pre| - 1] == pre[|pre| - 1];
    ReplaceAllAtN(s, prev, at, rep, |pre|);
  }

  /** ReplaceAllAtParts with the replacement and the last character of the
      match given by name. */
  lemma ReplaceAllAtPartsAs(pre: string, rest: string, prev: Option<char>,
                            at: (Option<char>, string) -> nat, rep: string -> string,
                            out: string, last: char)
    requires pre != [] && at(prev, pre + rest) == |pre|
    requires rep(pre) == out && pre[|pre| - 1] == last
    ensures ReplaceAll(pre + rest, prev, at, rep) == out + ReplaceAll(rest, Some(last), at, rep)
  {
    ReplaceAllAtParts(pre, rest, prev, at, rep);
  }

  /** No match of `at` starts at any position of `s`. */
  predicate NoMatch(s: string, prev: Option<char>, at: (Option<char>, string) -> nat)
    decreases |s|
  {
    s == [] || (!(0 < at(prev, s) <= |s|) && NoMatch(s[1..], Some(s[0]), at))
  }

  /** Replacing where nothing matches changes nothing. */
  lemma {:induction false} ReplaceAllNoMatch(s: string, prev: Option<char>,
                                            at: (Option<char>, string) -> nat, rep: string -> string)
    ensures NoMatch(s, prev, at) ==> ReplaceAll(s, prev, at, rep) == s
    decreases |s|
  {
    if s != [] && NoMatch(s, prev, at) {
      ReplaceAllNoMatch(s[1..], Some(s[0]), at, rep);
    }
  }

  /** A pattern that needs the character `c` matches nowhere in a text
      without `c`. */
  lemma {:induction false} NoMatchWithout(s: string, prev: Option<char>,
                                         at: (Option<char>, string) -> nat, c: char)
    requires c !in s
    requires forall q, t :: c !in t ==> at(q, t) == 0
    ensures NoMatch(s, prev, at)
    decreases |s|
  {
    if s != [] {
      assert c !in s[1..] by {
        assert forall x :: x in s[1..] ==> x in s;
      }
      NoMatchWithout(s[1..], Some(s[0]), at, c);
    }
  }

  // ---------------------------------------------------------------------------
  // The patterns

  /** `([-*+]|\d+\.)` at the start of `s`: its length, 0 when absent. */
  function MarkerLength(s: string): (k: nat)
    ensures k <= |s|
  {
    if s != [] && IsMarkerChar(s[0]) then 1
    else
      var d := LeadingDigits(s);
      if 0 < d < |s| && s[d] == '.' then d + 1 else 0
  }

  /** `•\s*` at `s[k..]`: the end of the match, 0 when absent. */
  function BulletFrom(s: string, k: nat): nat
    requires k <= |s|
  {
    if k < |s| && s[k] == Bullet then k + 1 + Run(s[k + 1..], IsJsSpace) else 0
  }

  /** `\d+\.\s+` at `s[k..]`: the end of the match, 0 when absent. */
  function NumberFrom(s: string, k: nat): nat
    requires k <= |s|
  {
    var d := LeadingDigits(s[k..]);
    if 0 < d && k + d < |s| && s[k + d] == '.' then
      var w := Run(s[k + d + 1..], IsJsSpace);
      if w > 0 then k + d + 1 + w else 0
    else 0
  }

  /** `(\s+)•\s*`. */
  function InlineBulletAt(prev: Option<char>, s: string): nat
  {
    var k := Run(s, IsJsSpace);
    if k > 0 then BulletFrom(s, k) else 0
  }

  /** `(\s+)(\d+\.)\s+`. */
  function InlineNumberAt(prev: Option<char>, s: string): nat
  {
    var k := Run(s, IsJsSpace);
    if k > 0 then NumberFrom(s, k) else 0
  }

  /** `(?:^|\s+)•\s*`: at the start of the input the bullet itself may begin
      the match. */
  function RootBulletAt(prev: Option<char>, s: string): nat
  {
    if prev.None? && BulletFrom(s, 0) > 0 then BulletFrom(s, 0) else InlineBulletAt(prev, s)
  }

  /** `(?:^|\s+)(\d+\.)\s+`. */
  function RootNumberAt(prev: Option<char>, s: string): nat
  {
    if prev.None? && NumberFrom(s, 0) > 0 then NumberFrom(s, 0) else InlineNumberAt(prev, s)
  }

  /** The `\d+\.` part of a matched numbered item, the `$1`/`$2` of the
      replacements. */
  function NumberPart(m: string): string
  {
    var k := Run(m, IsJsSpace);
    var d := LeadingDigits(m[k..]);
    if k + d + 1 <= |m| then m[k..k + d + 1] else m
  }

  /** `^([-*+]|\d+\.)[ \t]{2,}` with the multiline flag: `^` holds at the
      start of the input and after each line terminator. */
  function MarkerSpacingAt(prev: Option<char>, s: string): nat
  {
    if prev.None? || IsLineTerminator(prev.value) then
      var m := MarkerLength(s);
      if m > 0 && Run(s[m..], IsBlank) >= 2 then m + Run(s[m..], IsBlank) else 0
    else 0
  }

  /** A bullet becomes a new line, the indent and a dash. */
  function BulletRep(indent: string): string -> string
  {
    m => "\n" + indent + "- "
  }

  /** A numbered item becomes a new line, the indent and its number. */
  function NumberRep(indent: string): string -> string
  {
    m => "\n" + indent + NumberPart(m) + " "
  }

  /** `$1 `: the marker and one space. */
  function MarkerSpacingRep(m: string): string
  {
    m[..MarkerLength(m)] + " "
  }

  /** `\n{3,}`. */
  function BlankLinesAt(prev: Option<char>, s: string): nat
  {
    var n := Run(s, IsNewline);
    if n >= 3 then n else 0
  }

  function BlankLinesRep(m: string): string
  {
    "\n\n"
  }

  // ---------------------------------------------------------------------------
  // Lines

  /** `line.match(/^(\s*)([-*+]|\d+\.)\s+/)`: the end of the indent and the
      end of the marker, for a list item. */
  datatype ListMatch = ListMatch(indentEnd: nat, markerEnd: nat)

  function ListItem(line: string): (r: Option<ListMatch>)
    ensures r.Some? ==> 0 < r.value.markerEnd < |line| && r.value.indentEnd < r.value.markerEnd
  {
    var k := Run(line, IsJsSpace);
    var m := MarkerLength(line[k..]);
    if m > 0 && k + m < |line| && IsJsSpace(line[k + m]) then Some(ListMatch(k, k + m)) else None
  }

  /** The two rewrites of a list-item line: an inline bullet becomes a
      sub-item, and so does an inline numbered item, both indented by
      `subIndent`. */
  function ListRewrites(text: string, subIndent: string): string
  {
    var bullets := ReplaceAll(text, None, InlineBulletAt, BulletRep(subIndent));
    ReplaceAll(bullets, None, InlineNumberAt, NumberRep(subIndent))
  }

  /** A list-item line as written: the rewrites run over the whole line,
      including the item's own indent and marker. */
  function ListLineAsWritten(line: string, lm: ListMatch): string
    requires lm.markerEnd <= |line| && lm.indentEnd <= lm.markerEnd
  {
    ListRewrites(line, line[..lm.indentEnd] + "  ")
  }

  /** A list-item line with the item's own indent and marker kept: the
      rewrites run over the text after them. */
  function ListLine(line: string, lm: ListMatch): (r: string)
    requires lm.markerEnd <= |line| && lm.indentEnd <= lm.markerEnd
    ensures StartsWith(r, line[..lm.markerEnd])
  {
    var r := line[..lm.markerEnd] + ListRewrites(line[lm.markerEnd..], line[..lm.indentEnd] + "  ");
    assert r[..lm.markerEnd] == line[..lm.markerEnd];
    r
  }

  /** Any other line: bullets and numbered items start new root items. */
  function RootLine(line: string): string
  {
    var bullets := ReplaceAll(line, None, RootBulletAt, BulletRep(""));
    ReplaceAll(bullets, None, RootNumberAt, NumberRep(""))
  }

  function ProcessLine(line: string): (r: string)
    ensures ListItem(line).Some? ==> StartsWith(r, line[..ListItem(line).value.markerEnd])
  {
    match ListItem(line)
    case Some(lm) => ListLine(line, lm)
    case None => RootLine(line)
  }

  /** An indented numbered item is a list item whose indent is two spaces and
      whose marker is "1.". */
  lemma IndentedNumberedItem()
    ensures ListItem("  1. First") == Some(ListMatch(2, 4))
  {
    IndentedExampleText();
    NumberedListItem("  ", "1", " First");
  }

  lemma IndentedExampleText()
    ensures "  1. First" == "  " + "1" + "." + " First"
    ensures forall i :: 0 <= i < |"  "| ==> IsJsSpace("  "[i])
    ensures AllDigits("1") && IsJsSpace(" First"[0])
  {
  }

  /** Leading white space, digits, a dot and white space make a numbered
      list item: the indent is the white space and the marker the digits and
      the dot. */
  lemma NumberedListItem(ws: string, d: string, rest: string)
    requires forall i :: 0 <= i < |ws| ==> IsJsSpace(ws[i])
    requires d != [] && AllDigits(d)
    requires rest != [] && IsJsSpace(rest[0])
    ensures ListItem(ws + d + "." + rest) == Some(ListMatch(|ws|, |ws| + |d| + 1))
  {
    var t := d + "." + rest;
    var line := ws + t;
    assert ws + d + "." + rest == line;
    RunOf(ws, t, IsJsSpace);
    assert line[|ws|..] == t;
    NumberedMarkerLength(d, rest);
    assert line[|ws| + |d| + 1] == rest[0];
  }

  /** Digits and a dot are a marker of their own length plus one. */
  lemma NumberedMarkerLength(d: string, rest: string)
    requires d != [] && AllDigits(d)
    ensures MarkerLength(d + "." + rest) == |d| + 1
  {
    var u := "." + rest;
    assert d + "." + rest == d + u;
    LeadingDigitsOf(d, u);
    assert (d + u)[|d|] == '.';
  }

  /** The bullet patterns need a bullet, the numbered patterns a dot. */
  lemma PatternsNeedTheirCharacter()
    ensures forall q, t :: Bullet !in t ==> InlineBulletAt(q, t) == 0 && RootBulletAt(q, t) == 0
    ensures forall q, t :: '.' !in t ==> InlineNumberAt(q, t) == 0 && RootNumberAt(q, t) == 0
  {
  }

  /** Text without bullets or dots goes through the rewrites of a list item
      unchanged. */
  lemma ListRewritesPlain(text: string, subIndent: string)
    requires Bullet !in text && '.' !in text
    ensures ListRewrites(text, subIndent) == text
  {
    PatternsNeedTheirCharacter();
    NoMatchWithout(text, None, InlineBulletAt, Bullet);
    ReplaceAllNoMatch(text, None, InlineBulletAt, BulletRep(subIndent));
    NoMatchWithout(text, None, InlineNumberAt, '.');
    ReplaceAllNoMatch(text, None, InlineNumberAt, NumberRep(subIndent));
  }

  /** A run of characters satisfying `p`, ended by one that does not. */
  lemma {:induction false} RunOf(a: string, b: string, p: char -> bool)
    requires forall i :: 0 <= i < |a| ==> p(a[i])
    requires b == [] || !p(b[0])
    ensures Run(a + b, p) == |a|
    decreases |a|
  {
    if a == [] {
      assert a + b == b;
    } else {
      assert (a + b)[1..] == a[1..] + b;
      RunOf(a[1..], b, p);
    }
  }

  /** Digits, a dot and white space at `s[k..]` match `\d+\.\s+`. */
  lemma NumberFromOf(s: string, k: nat, d: string, u: string, w: string)
    requires k <= |s| && s[k..] == d + u
    requires d != [] && AllDigits(d)
    requires u != [] && u[0] == '.'
    requires w != [] && forall i :: 0 <= i < |w| ==> IsJsSpace(w[i])
    requires Run(u[1..], IsJsSpace) == |w|
    ensures NumberFrom(s, k) == k + |d| + 1 + |w|
  {
    LeadingDigitsOf(d, u);
    assert s[k + |d|] == u[0];
    assert s[k + |d| + 1..] == u[1..];
  }

  /** White space, digits, a dot and more white space: the numbered-item
      pattern matches all of it. */
  lemma NumberedItemMatch(ws: string, d: string, w: string, rest: string)
    requires ws != [] && forall i :: 0 <= i < |ws| ==> IsJsSpace(ws[i])
    requires d != [] && AllDigits(d)
    requires w != [] && forall i :: 0 <= i < |w| ==> IsJsSpace(w[i])
    requires rest == [] || !IsJsSpace(rest[0])
    ensures InlineNumberAt(None, ws + d + "." + w + rest) == |ws| + |d| + 1 + |w|
  {
    var u := "." + w + rest;
    var t := d + u;
    var s := ws + t;
    assert ws + d + "." + w + rest == s;
    RunOf(ws, t, IsJsSpace);
    assert s[|ws|..] == t;
    assert u[1..] == w + rest;
    RunOf(w, rest, IsJsSpace);
    NumberFromOf(s, |ws|, d, u, w);
  }

  /** The replacement of a matched numbered item keeps its number. */
  lemma NumberedItemRep(ws: string, d: string, w: string, indent: string)
    requires ws != [] && forall i :: 0 <= i < |ws| ==> IsJsSpace(ws[i])
    requires d != [] && AllDigits(d)
    ensures NumberRep(indent)(ws + d + "." + w) == "\n" + indent + d + ". "
  {
    NumberPartOf(ws, d, w);
    assert "\n" + indent + (d + ".") + " " == "\n" + indent + d + ". ";
  }

  /** The number of a matched numbered item is its digits and the dot. */
  lemma NumberPartOf(ws: string, d: string, w: string)
    requires ws != [] && forall i :: 0 <= i < |ws| ==> IsJsSpace(ws[i])
    requires d != [] && AllDigits(d)
    ensures NumberPart(ws + d + "." + w) == d + "."
  {
    var m := ws + d + "." + w;
    NumberedItemParts(ws, d, w);
    NumberPartAt(m, |ws|, |d|);
  }

  /** How white space, digits, a dot and more white space split up. */
  lemma NumberedItemParts(ws: string, d: string, w: string)
    requires forall i :: 0 <= i < |ws| ==> IsJsSpace(ws[i])
    requires d != [] && AllDigits(d)
    ensures var m := ws + d + "." + w;
      && Run(m, IsJsSpace) == |ws| && LeadingDigits(m[|ws|..]) == |d|
      && m[|ws|..|ws| + |d| + 1] == d + "."
  {
    var v := "." + w;
    var u := d + v;
    var m := ws + u;
    assert ws + d + "." + w == m;
    RunOf(ws, u, IsJsSpace);
    assert m[|ws|..] == u;
    LeadingDigitsOf(d, v);
    assert m[|ws|..|ws| + |d| + 1] == u[..|d| + 1] == d + ".";
  }

  /** NumberPart reads the digits and the dot after the leading white space. */
  lemma NumberPartAt(m: string, k: nat, n: nat)
    requires Run(m, IsJsSpace) == k && k + n + 1 <= |m| && LeadingDigits(m[k..]) == n
    ensures NumberPart(m) == m[k..k + n + 1]
  {
  }

  /** The number rewrite replaces a leading numbered item. */
  lemma NumberedItemRewrite(ws: string, d: string, w: string, rest: string, indent: string)
    requires ws != [] && forall i :: 0 <= i < |ws| ==> IsJsSpace(ws[i])
    requires d != [] && AllDigits(d)
    requires w != [] && forall i :: 0 <= i < |w| ==> IsJsSpace(w[i])
    requires rest == [] || !IsJsSpace(rest[0])
    requires '.' !in rest
    ensures ReplaceAll(ws + d + "." + w + rest, None, InlineNumberAt, NumberRep(indent))
            == "\n" + indent + d + ". " + rest
  {
    var m := ws + d + "." + w;
    var line := m + rest;
    assert line == ws + d + "." + w + rest;
    var n := |m|;
    NumberedItemMatch(ws, d, w, rest);
    ReplaceAllAtN(line, None, InlineNumberAt, NumberRep(indent), n);
    assert line[..n] == m && line[n..] == rest;
    NumberedItemRep(ws, d, w, indent);
    PlainTextHasNoNumber(rest, Some(line[n - 1]), NumberRep(indent));
  }

  /** Text without a dot is left alone by the number rewrite. */
  lemma PlainTextHasNoNumber(rest: string, prev: Option<char>, rep: string -> string)
    requires '.' !in rest
    ensures ReplaceAll(rest, prev, InlineNumberAt, rep) == rest
  {
    PatternsNeedTheirCharacter();
    NoMatchWithout(rest, prev, InlineNumberAt, '.');
    ReplaceAllNoMatch(rest, prev, InlineNumberAt, rep);
  }

  /** As written, the number rewrite also matches the indent and marker of
      an indented numbered item: the item is pushed onto a new line and two
      spaces deeper. */
  lemma ListLineAsWrittenMovesItem(ws: string, d: string, w: string, rest: string)
    requires ws != [] && forall i :: 0 <= i < |ws| ==> IsJsSpace(ws[i])
    requires d != [] && AllDigits(d)
    requires w != [] && forall i :: 0 <= i < |w| ==> IsJsSpace(w[i])
    requires rest == [] || !IsJsSpace(rest[0])
    requires Bullet !in rest && '.' !in rest
    ensures ListLineAsWritten(ws + d + "." + w + rest, ListMatch(|ws|, |ws| + |d| + 1))
            == "\n" + ws + "  " + d + ". " + rest
  {
    var line := ws + d + "." + w + rest;
    var indent := ws + "  ";
    assert line[..|ws|] == ws;
    assert ListLineAsWritten(line, ListMatch(|ws|, |ws| + |d| + 1)) == ListRewrites(line, indent);
    assert Bullet !in line by {
      assert Bullet !in ws && Bullet !in d && Bullet !in w;
    }
    PlainTextHasNoBullet(line, None, BulletRep(indent));
    assert ListRewrites(line, indent) == ReplaceAll(line, None, InlineNumberAt, NumberRep(indent));
    NumberedItemRewrite(ws, d, w, rest, indent);
    RegroupIndent("\n", ws, "  ", d, ". ", rest);
  }

  lemma RegroupIndent(a: string, b: string, c: string, d: string, e: string, f: string)
    ensures a + (b + c) + d + e + f == a + b + c + d + e + f
  {
  }

  /** Text without a bullet is left alone by the bullet rewrite. */
  lemma PlainTextHasNoBullet(s: string, prev: Option<char>, rep: string -> string)
    requires Bullet !in s
    ensures ReplaceAll(s, prev, InlineBulletAt, rep) == s
  {
    PatternsNeedTheirCharacter();
    NoMatchWithout(s, prev, InlineBulletAt, Bullet);
    ReplaceAllNoMatch(s, prev, InlineBulletAt, rep);
  }

  /** The line "  1. First" moves. */
  lemma ListLineAsWrittenExample()
    ensures ListLineAsWritten("  1. First", ListMatch(2, 4)) == "\n    1. First"
  {
    assert "  1. First" == "  " + "1" + "." + " " + "First";
    ListLineAsWrittenMovesItem("  ", "1", " ", "First");
    MovedExampleText();
  }

  lemma MovedExampleText()
    ensures "\n" + "  " + "  " + "1" + ". " + "First" == "\n    1. First"
  {
  }

  /** Keeping the item's own indent and marker leaves the same line as it is. */
  lemma ListLineKeepsItem()
    ensures ListLine("  1. First", ListMatch(2, 4)) == "  1. First"
  {
    var line := "  1. First";
    assert line[4..] == " First";
    assert line[..2] + "  " == "    ";
    ListRewritesPlain(" First", "    ");
    assert line[..4] + " First" == line;
  }

  /** The line patterns find nothing in plain text: no bullet, and no digit
      directly followed by a dot. */
  predicate Plain(s: string)
  {
    Bullet !in s && forall i :: 0 <= i < |s| - 1 ==> !(IsDigit(s[i]) && s[i + 1] == '.')
  }

  lemma PlainSlice(s: string, i: nat, j: nat)
    requires Plain(s) && i <= j <= |s|
    ensures Plain(s[i..j])
  {
    assert forall c :: c in s[i..j] ==> c in s;
    assert forall k :: 0 <= k < |s[i..j]| ==> s[i..j][k] == s[i + k];
  }

  /** None of the four line patterns matches plain text. */
  lemma PlainHasNoItem(q: Option<char>, t: string)
    requires Plain(t)
    ensures InlineBulletAt(q, t) == 0 && RootBulletAt(q, t) == 0
    ensures InlineNumberAt(q, t) == 0 && RootNumberAt(q, t) == 0
  {
    PatternsNeedTheirCharacter();
    forall k: nat | k <= |t|
      ensures NumberFrom(t, k) == 0
    {
      var d := LeadingDigits(t[k..]);
      if 0 < d && k + d < |t| {
        assert IsDigit(t[k..][..d][d - 1]) && t[k..][..d][d - 1] == t[k + d - 1];
        assert t[k + d] != '.';
      }
    }
  }

  /** Replacing with a line pattern changes no plain text. */
  lemma {:induction false} PlainUnchanged(s: string, prev: Option<char>,
                                         at: (Option<char>, string) -> nat, rep: string -> string)
    requires Plain(s)
    requires at == InlineBulletAt || at == RootBulletAt || at == InlineNumberAt || at == RootNumberAt
    ensures ReplaceAll(s, prev, at, rep) == s
    decreases |s|
  {
    if s != [] {
      PlainHasNoItem(prev, s);
      PlainSlice(s, 1, |s|);
      PlainUnchanged(s[1..], Some(s[0]), at, rep);
    }
  }

  lemma ListLinePlain(line: string, lm: ListMatch)
    requires lm.markerEnd <= |line| && lm.indentEnd <= lm.markerEnd
    requires Plain(line)
    ensures ListLine(line, lm) == line
  {
    var rest := line[lm.markerEnd..];
    var indent := line[..lm.indentEnd] + "  ";
    PlainSlice(line, lm.markerEnd, |line|);
    PlainUnchanged(rest, None, InlineBulletAt, BulletRep(indent));
    PlainUnchanged(rest, None, InlineNumberAt, NumberRep(indent));
    assert ListRewrites(rest, indent) == rest;
    PrefixAndRest(line, lm.markerEnd);
  }

  lemma PrefixAndRest(s: string, k: nat)
    requires k <= |s|
    ensures s[..k] + s[k..] == s
  {
  }

  lemma RootLinePlain(line: string)
    requires Plain(line)
    ensures RootLine(line) == line
  {
    PlainUnchanged(line, None, RootBulletAt, BulletRep(""));
    PlainUnchanged(line, None, RootNumberAt, NumberRep(""));
  }

  /** A plain line is left as it is, list item or not. */
  lemma ProcessLinePlain(line: string)
    requires Plain(line)
    ensures ProcessLine(line) == line
  {
    match ListItem(line)
    case Some(lm) => ListLinePlain(line, lm);
    case None => RootLinePlain(line);
  }

  // ---------------------------------------------------------------------------
  // The body

  /** The body split into lines, each line processed, joined again. */
  function ProcessLines(body: string): string
  {
    var lines := Split(body, '\n');
    Join(seq(|lines|, i requires 0 <= i < |lines| => ProcessLine(lines[i])), "\n")
  }

  /** `replace(/^([-*+]|\d+\.)[ \t]{2,}/gm, "$1 ")`. */
  function TidyMarkers(s: string): (r: string)
    ensures MarkersTidy(s) ==> r == s
  {
    ReplaceAllNoMatch(s, None, MarkerSpacingAt, MarkerSpacingRep);
    ReplaceAll(s, None, MarkerSpacingAt, MarkerSpacingRep)
  }

  /** No line starts with a list marker followed by two or more blanks. */
  predicate MarkersTidy(s: string)
  {
    NoMatch(s, None, MarkerSpacingAt)
  }

  /** `[-*+]|\d+\.`: a list marker on its own. */
  predicate IsMarker(m: string)
  {
    (|m| == 1 && IsMarkerChar(m[0])) || (|m| >= 2 && m[|m| - 1] == '.' && AllDigits(m[..|m| - 1]))
  }

  /** A marker at the start of a text is matched whole, whatever follows. */
  lemma MarkerLengthOfMarker(m: string, t: string)
    requires IsMarker(m)
    ensures MarkerLength(m + t) == |m|
  {
    if |m| == 1 && IsMarkerChar(m[0]) {
      assert (m + t)[0] == m[0];
    } else {
      var d := m[..|m| - 1];
      assert m == d + ".";
      assert m + t == d + "." + t;
      NumberedMarkerLength(d, t);
    }
  }

  /** At the start of a line, a marker (a dash, star or plus, or digits and a
      dot) followed by two or more blanks keeps the marker and one space. */
  lemma MarkerSpacingCollapses(m: string, w: string, rest: string, prev: Option<char>)
    requires IsMarker(m)
    requires prev.None? || IsLineTerminator(prev.value)
    requires |w| >= 2 && forall i :: 0 <= i < |w| ==> IsBlank(w[i])
    requires rest == [] || !IsBlank(rest[0])
    ensures ReplaceAll(m + w + rest, prev, MarkerSpacingAt, MarkerSpacingRep)
            == m + " " + ReplaceAll(rest, Some(w[|w| - 1]), MarkerSpacingAt, MarkerSpacingRep)
  {
    assert MarkerSpacingAt(prev, m + w + rest) == |m + w| by {
      MarkerSpacingAtMarker(m, w, rest, prev);
    }
    assert MarkerSpacingRep(m + w) == m + " " by {
      MarkerSpacingParts(m, w, rest);
    }
    assert (m + w)[|m + w| - 1] == w[|w| - 1];
    ReplaceAllAtPartsAs(m + w, rest, prev, MarkerSpacingAt, MarkerSpacingRep, m + " ", w[|w| - 1]);
  }

  /** How a marker, its blanks and the rest of the line split up. */
  lemma MarkerSpacingParts(m: string, w: string, rest: string)
    requires IsMarker(m) && |w| >= 1
    ensures var s := m + w + rest;
      && s[..|m| + |w|] == m + w && s[|m| + |w|..] == rest && s[|m| + |w| - 1] == w[|w| - 1]
      && MarkerSpacingRep(m + w) == m + " "
  {
    var s := m + w + rest;
    assert s[..|m| + |w|] == m + w;
    assert s[|m| + |w|..] == rest;
    MarkerLengthOfMarker(m, w);
    assert (m + w)[..|m|] == m;
  }

  /** The marker pattern at a line start spans the marker and its blanks. */
  lemma MarkerSpacingAtMarker(m: string, w: string, rest: string, prev: Option<char>)
    requires IsMarker(m)
    requires prev.None? || IsLineTerminator(prev.value)
    requires |w| >= 2 && forall i :: 0 <= i < |w| ==> IsBlank(w[i])
    requires rest == [] || !IsBlank(rest[0])
    ensures MarkerSpacingAt(prev, m + w + rest) == |m| + |w|
  {
    var s := m + w + rest;
    assert s == m + (w + rest);
    MarkerLengthOfMarker(m, w + rest);
    assert s[|m|..] == w + rest;
    RunOf(w, rest, IsBlank);
  }

  /** Within a line, away from its start, the marker pattern never matches. */
  lemma {:induction false} InsideLineNoMarker(s: string, prev: Option<char>)
    requires prev.Some? && !IsLineTerminator(prev.value)
    requires forall i :: 0 <= i < |s| ==> !IsLineTerminator(s[i])
    ensures NoMatch(s, prev, MarkerSpacingAt)
    decreases |s|
  {
    if s != [] {
      InsideLineNoMarker(s[1..], Some(s[0]));
    }
  }

  /** "-      Item" becomes "- Item". */
  lemma TidyMarkersExample()
    ensures TidyMarkers("-      Item") == "- Item"
  {
    TidyExampleText();
    TidyLine("-      Item", "-", "      ", "Item", "- Item");
  }

  lemma TidyExampleText()
    ensures "-      Item" == "-" + "      " + "Item" && "- Item" == "- " + "Item"
    ensures IsMarker("-")
    ensures |"      "| >= 2 && forall i :: 0 <= i < |"      "| ==> "      "[i] == ' '
    ensures "Item" != [] && forall i :: 0 <= i < |"Item"| ==> 'A' <= "Item"[i] <= 'z'
  {
  }

  /** "12.   Step" becomes "12. Step". */
  lemma TidyNumberedExample()
    ensures TidyMarkers("12.   Step") == "12. Step"
  {
    TidyNumberedText();
    TidyLine("12.   Step", "12.", "   ", "Step", "12. Step");
  }

  lemma TidyNumberedText()
    ensures "12.   Step" == "12." + "   " + "Step" && "12. Step" == "12. " + "Step"
    ensures IsMarker("12.")
    ensures |"   "| >= 2 && forall i :: 0 <= i < |"   "| ==> "   "[i] == ' '
    ensures "Step" != [] && forall i :: 0 <= i < |"Step"| ==> 'A' <= "Step"[i] <= 'z'
  {
  }

  /** The line `s`, a marker, spaces and a word, is tidied into `r`. */
  lemma TidyLine(s: string, m: string, w: string, word: string, r: string)
    requires s == m + w + word && r == m + " " + word && IsMarker(m)
    requires |w| >= 2 && forall i :: 0 <= i < |w| ==> w[i] == ' '
    requires word != [] && forall i :: 0 <= i < |word| ==> 'A' <= word[i] <= 'z'
    ensures TidyMarkers(s) == r
  {
    MarkerSpacesWord(m, w, word);
  }

  /** A line of a marker, spaces and a word keeps one space after the marker. */
  lemma MarkerSpacesWord(m: string, w: string, word: string)
    requires IsMarker(m)
    requires |w| >= 2 && forall i :: 0 <= i < |w| ==> w[i] == ' '
    requires word != [] && forall i :: 0 <= i < |word| ==> 'A' <= word[i] <= 'z'
    ensures ReplaceAll(m + w + word, None, MarkerSpacingAt, MarkerSpacingRep) == m + " " + word
  {
    MarkerSpacingCollapses(m, w, word, None);
    InsideLineNoMarker(word, Some(' '));
    ReplaceAllNoMatch(word, Some(' '), MarkerSpacingAt, MarkerSpacingRep);
  }

  /** `replace(/\n{3,}/g, "\n\n")`. */
  function CollapseBlankLines(s: string): (r: string)
    ensures NoTriple(r)
    ensures NoTriple(s) ==> r == s
  {
    CollapseShape(s, None);
    NoTripleNoMatch(s, None);
    ReplaceAllNoMatch(s, None, BlankLinesAt, BlankLinesRep);
    ReplaceAll(s, None, BlankLinesAt, BlankLinesRep)
  }

  /** No three line feeds in a row: at most one empty line between two
      others. */
  predicate NoTriple(s: string)
  {
    forall i :: 0 <= i && i + 2 < |s| ==> !(s[i] == '\n' && s[i + 1] == '\n' && s[i + 2] == '\n')
  }

  predicate Trimmed(s: string)
  {
    s != [] ==> !IsJsSpace(s[0]) && !IsJsSpace(s[|s| - 1])
  }

  /** One or two line feeds before text that starts with fewer line feeds
      than make three. */
  lemma NoTriplePrefix(a: string, r: string)
    requires forall i :: 0 <= i < |a| ==> a[i] == '\n'
    requires |a| + Run(r, IsNewline) <= 2
    requires NoTriple(r)
    ensures NoTriple(a + r)
  {
    var s := a + r;
    forall i | 0 <= i && i + 2 < |s|
      ensures !(s[i] == '\n' && s[i + 1] == '\n' && s[i + 2] == '\n')
    {
      if i >= |a| {
        assert s[i] == r[i - |a|] && s[i + 1] == r[i - |a| + 1] && s[i + 2] == r[i - |a| + 2];
      } else {
        var k := Run(r, IsNewline);
        assert |a| + k == i + 1 || |a| + k == i + 2;
        assert s[|a| + k] == r[k] && !IsNewline(r[k]);
      }
    }
  }

  lemma NoTripleCons(c: char, r: string)
    requires c != '\n' && NoTriple(r)
    ensures NoTriple([c] + r)
  {
    var s := [c] + r;
    forall i | 1 <= i && i + 2 < |s|
      ensures !(s[i] == '\n' && s[i + 1] == '\n' && s[i + 2] == '\n')
    {
      assert s[i] == r[i - 1] && s[i + 1] == r[i] && s[i + 2] == r[i + 1];
    }
  }

  /** After the collapse no three line feeds follow each other, and a leading
      run of three or more line feeds is two. */
  lemma {:induction false} CollapseShape(s: string, prev: Option<char>)
    ensures NoTriple(ReplaceAll(s, prev, BlankLinesAt, BlankLinesRep))
    ensures Run(ReplaceAll(s, prev, BlankLinesAt, BlankLinesRep), IsNewline)
            == if Run(s, IsNewline) >= 3 then 2 else Run(s, IsNewline)
    decreases |s|
  {
    if s != [] {
      var n := BlankLinesAt(prev, s);
      if 0 < n <= |s| {
        var t := s[n..];
        CollapseShape(t, Some(s[n - 1]));
        ReplaceAllAtN(s, prev, BlankLinesAt, BlankLinesRep, n);
        var r := ReplaceAll(t, Some(s[n - 1]), BlankLinesAt, BlankLinesRep);
        assert Run(t, IsNewline) == 0 by {
          assert t != [] ==> t[0] == s[n];
        }
        NoTriplePrefix("\n\n", r);
        RunOf("\n\n", r, IsNewline);
      } else {
        CollapseShape(s[1..], Some(s[0]));
        var r := ReplaceAll(s[1..], Some(s[0]), BlankLinesAt, BlankLinesRep);
        if s[0] == '\n' {
          NoTriplePrefix("\n", r);
          assert ([s[0]] + r)[1..] == r;
        } else {
          NoTripleCons(s[0], r);
        }
      }
    }
  }

  /** Text without three line feeds in a row has nothing to collapse. */
  lemma {:induction false} NoTripleNoMatch(s: string, prev: Option<char>)
    ensures NoTriple(s) ==> NoMatch(s, prev, BlankLinesAt)
    decreases |s|
  {
    if s != [] && NoTriple(s) {
      assert Run(s, IsNewline) < 3 by {
        assert |s| >= 3 ==> !(s[0] == '\n' && s[1] == '\n' && s[2] == '\n');
      }
      assert forall i :: 0 <= i < |s| - 1 ==> s[1..][i] == s[i + 1];
      NoTripleNoMatch(s[1..], Some(s[0]));
    }
  }

  lemma TrimNoTriple(s: string)
    requires NoTriple(s)
    ensures NoTriple(Trim(s))
  {
    var r := Trim(s);
    var i :| TrimmedAt(r, s, i);
    InfixNoTriple(r, s, i);
  }

  /** A piece of a text without three line feeds in a row has none either. */
  lemma InfixNoTriple(r: string, s: string, i: int)
    requires NoTriple(s) && IsInfixAt(r, s, i)
    ensures NoTriple(r)
  {
    forall j | 0 <= j && j + 2 < |r|
      ensures !(r[j] == '\n' && r[j + 1] == '\n' && r[j + 2] == '\n')
    {
      assert r[j] == s[i + j] && r[j + 1] == s[i + j + 1] && r[j + 2] == s[i + j + 2];
    }
  }

  lemma TrimTrimmed(s: string)
    requires Trimmed(s)
    ensures Trim(s) == s
  {
  }

  /** The body as the sanitizer leaves it. */
  function SanitizeBody(body: string): (r: string)
    ensures Trimmed(r)
    ensures NoTriple(r)
  {
    var collapsed := CollapseBlankLines(TidyMarkers(ProcessLines(body)));
    CollapseShape(TidyMarkers(ProcessLines(body)), None);
    TrimNoTriple(collapsed);
    Trim(collapsed)
  }

  /** Collapsing twice collapses no more than collapsing once. */
  lemma CollapseIdempotent(s: string)
    ensures CollapseBlankLines(CollapseBlankLines(s)) == CollapseBlankLines(s)
  {
    var c := CollapseBlankLines(s);
    CollapseShape(s, None);
    NoTripleNoMatch(c, None);
    ReplaceAllNoMatch(c, None, BlankLinesAt, BlankLinesRep);
  }

  /** The first part of a split is a prefix of the text. */
  lemma {:induction false} SplitFirstPrefix(s: string, sep: char)
    ensures StartsWith(s, Split(s, sep)[0])
    decreases |s|
  {
    if s != [] {
      SplitFirstPrefix(s[1..], sep);
      var rest := Split(s[1..], sep);
      if s[0] != sep {
        assert s[..|rest[0]| + 1] == [s[0]] + s[1..][..|rest[0]|];
      }
    }
  }

  /** Every line of plain text is plain. */
  lemma {:induction false} SplitPlain(s: string)
    requires Plain(s)
    ensures forall i :: 0 <= i < |Split(s, '\n')| ==> Plain(Split(s, '\n')[i])
    decreases |s|
  {
    if s != [] {
      PlainSlice(s, 1, |s|);
      SplitPlain(s[1..]);
      var rest := Split(s[1..], '\n');
      var parts := Split(s, '\n');
      if s[0] != '\n' {
        SplitFirstPrefix(s, '\n');
        PlainSlice(s, 0, |parts[0]|);
        assert s[0..|parts[0]|] == parts[0];
        assert forall i :: 1 <= i < |parts| ==> parts[i] == rest[i];
      } else {
        assert Plain(parts[0]);
        assert forall i :: 1 <= i < |parts| ==> parts[i] == rest[i - 1];
      }
    }
  }

  /** Plain text comes out of the line pass as it went in. */
  lemma ProcessLinesPlain(body: string)
    requires Plain(body)
    ensures ProcessLines(body) == body
  {
    var lines := Split(body, '\n');
    SplitPlain(body);
    forall i | 0 <= i < |lines|
      ensures ProcessLine(lines[i]) == lines[i]
    {
      ProcessLinePlain(lines[i]);
    }
    assert seq(|lines|, i requires 0 <= i < |lines| => ProcessLine(lines[i])) == lines;
    JoinSplit(body, '\n');
  }

  /** A body the sanitizer has nothing to do to: plain, markers followed by
      one blank, no run of empty lines and no white space at either end. */
  predicate Sanitized(body: string)
  {
    Plain(body) && MarkersTidy(body) && NoTriple(body) && Trimmed(body)
  }

  lemma SanitizeBodyKeepsSanitized(body: string)
    requires Sanitized(body)
    ensures SanitizeBody(body) == body
  {
    ProcessLinesPlain(body);
    ReplaceAllNoMatch(body, None, MarkerSpacingAt, MarkerSpacingRep);
    NoTripleNoMatch(body, None);
    ReplaceAllNoMatch(body, None, BlankLinesAt, BlankLinesRep);
    TrimTrimmed(body);
  }

  // ---------------------------------------------------------------------------
  // The transformer

  /** `sanitizeContent()`: binary content is returned as it is; a text keeps
      its front matter and gets its body sanitized. */
  function Sanitize(originalPath: string, originalContent: Content): (r: Entry)
    ensures r.path == originalPath
    ensures originalContent.Binary? ==> r.content == originalContent
    ensures originalContent.Text? ==>
      && r.content.Text?
      && r.content.doc.data == originalContent.doc.data
      && Trimmed(r.content.doc.body) && NoTriple(r.content.doc.body)
  {
    match originalContent
    case Binary(_) => Entry(originalPath, originalContent)
    case Text(doc) => Entry(originalPath, Text(Document(doc.data, SanitizeBody(doc.body))))
  }

  /** An entry whose body is already sanitized comes out unchanged. */
  lemma SanitizeKeepsSanitized(originalPath: string, originalContent: Content)
    requires originalContent.Text? ==> Sanitized(originalContent.doc.body)
    ensures Sanitize(originalPath, originalContent) == Entry(originalPath, originalContent)
  {
    if originalContent.Text? {
      SanitizeBodyKeepsSanitized(originalContent.doc.body);
    }
  }

  // ---------------------------------------------------------------------------
  // Inline bullets

  /** Scanning over a prefix where nothing matches copies it. */
  lemma {:induction false} ReplaceAllSkip(a: string, t: string, prev: Option<char>,
                                         at: (Option<char>, string) -> nat, rep: string -> string)
    requires forall j, q :: 0 <= j < |a| ==> at(q, a[j..] + t) == 0
    ensures ReplaceAll(a + t, prev, at, rep)
            == a + ReplaceAll(t, if a == [] then prev else Some(a[|a| - 1]), at, rep)
    decreases |a|
  {
    if a == [] {
      assert a + t == t;
    } else {
      assert a[0..] + t == a + t;
      assert (a + t)[1..] == a[1..] + t;
      forall j, q | 0 <= j < |a[1..]|
        ensures at(q, a[1..][j..] + t) == 0
      {
        assert a[1..][j..] == a[j + 1..];
      }
      ReplaceAllSkip(a[1..], t, Some(a[0]), at, rep);
      if |a| > 1 {
        assert a[1..][|a| - 2] == a[|a| - 1];
      }
      AppendAssoc([a[0]], a[1..], ReplaceAll(t, if a == [] then prev else Some(a[|a| - 1]), at, rep));
      assert [a[0]] + a[1..] == a;
    }
  }

  lemma AppendAssoc(a: string, b: string, c: string)
    ensures a + (b + c) == a + b + c
  {
  }

  /** No bullet match starts inside text without bullets that ends in a
      character other than white space. */
  lemma NoBulletInside(a: string, t: string, q: Option<char>, j: nat)
    requires Bullet !in a && a != [] && !IsJsSpace(a[|a| - 1])
    requires j < |a|
    ensures InlineBulletAt(q, a[j..] + t) == 0 && RootBulletAt(q, a[j..] + t) == 0
  {
    var s := a[j..] + t;
    var k := Run(s, IsJsSpace);
    assert s[|a| - j - 1] == a[|a| - 1];
    assert k < |a| - j;
    assert s[k] == a[j + k];
    assert s[0] == a[j];
  }

  /** An inline bullet after some text: the text stays, the bullet and the
      white space around it become a new line, the indent and a dash. */
  lemma InlineBulletBecomesItem(a: string, ws: string, w: string, rest: string, indent: string,
                                at: (Option<char>, string) -> nat)
    requires at == InlineBulletAt || at == RootBulletAt
    requires Bullet !in a && a != [] && !IsJsSpace(a[|a| - 1])
    requires ws != [] && forall i :: 0 <= i < |ws| ==> IsJsSpace(ws[i])
    requires forall i :: 0 <= i < |w| ==> IsJsSpace(w[i])
    requires rest == [] || !IsJsSpace(rest[0])
    requires Bullet !in rest
    ensures ReplaceAll(a + (ws + [Bullet] + w + rest), None, at, BulletRep(indent))
            == a + ("\n" + indent + "- " + rest)
  {
    var t := ws + [Bullet] + w + rest;
    forall j, q | 0 <= j < |a|
      ensures at(q, a[j..] + t) == 0
    {
      NoBulletInside(a, t, q, j);
    }
    ReplaceAllSkip(a, t, None, at, BulletRep(indent));
    BulletItemRewrite(ws, w, rest, indent, Some(a[|a| - 1]), at);
  }

  /** After a character, white space, a bullet and white space become a new
      line, the indent and a dash; the rest is left as it is. */
  lemma BulletItemRewrite(ws: string, w: string, rest: string, indent: string, prev: Option<char>,
                          at: (Option<char>, string) -> nat)
    requires at == InlineBulletAt || at == RootBulletAt
    requires prev.Some?
    requires ws != [] && forall i :: 0 <= i < |ws| ==> IsJsSpace(ws[i])
    requires forall i :: 0 <= i < |w| ==> IsJsSpace(w[i])
    requires rest == [] || !IsJsSpace(rest[0])
    requires Bullet !in rest
    ensures ReplaceAll(ws + [Bullet] + w + rest, prev, at, BulletRep(indent)) == "\n" + indent + "- " + rest
  {
    var t := ws + [Bullet] + w + rest;
    var n := |ws| + 1 + |w|;
    BulletMatch(ws, w, rest, prev, at);
    ReplaceAllAtN(t, prev, at, BulletRep(indent), n);
    NoMatchWithout(rest, Some(t[n - 1]), at, Bullet) by {
      PatternsNeedTheirCharacter();
    }
    ReplaceAllNoMatch(rest, Some(t[n - 1]), at, BulletRep(indent));
  }

  /** After a character, white space, a bullet and white space match the
      bullet pattern. */
  lemma BulletMatch(ws: string, w: string, rest: string, prev: Option<char>,
                    at: (Option<char>, string) -> nat)
    requires at == InlineBulletAt || at == RootBulletAt
    requires prev.Some?
    requires ws != [] && forall i :: 0 <= i < |ws| ==> IsJsSpace(ws[i])
    requires forall i :: 0 <= i < |w| ==> IsJsSpace(w[i])
    requires rest == [] || !IsJsSpace(rest[0])
    ensures at(prev, ws + [Bullet] + w + rest) == |ws| + 1 + |w|
    ensures (ws + [Bullet] + w + rest)[|ws| + 1 + |w|..] == rest
  {
    var t := ws + [Bullet] + w + rest;
    Regroup4(ws, [Bullet], w, rest);
    RunOf(ws, [Bullet] + w + rest, IsJsSpace);
    assert t[|ws|] == Bullet;
    assert t[|ws| + 1..] == w + rest;
    RunOf(w, rest, IsJsSpace);
  }

  lemma Regroup4(a: string, b: string, c: string, d: string)
    ensures a + b + c + d == a + (b + c + d)
  {
  }

  /** At the start of a line, `(?:^|\s+)•\s*` matches optional white space,
      a bullet and the white space after it: the `^` alternative when the
      bullet comes first, the `\s+` one otherwise. */
  lemma RootBulletMatch(ws: string, w: string, rest: string)
    requires forall i :: 0 <= i < |ws| ==> IsJsSpace(ws[i])
    requires forall i :: 0 <= i < |w| ==> IsJsSpace(w[i])
    requires rest == [] || !IsJsSpace(rest[0])
    ensures RootBulletAt(None, ws + [Bullet] + w + rest) == |ws| + 1 + |w|
  {
    var t := ws + [Bullet] + w + rest;
    if ws == [] {
      assert t[0] == Bullet && t[1..] == w + rest;
      RunOf(w, rest, IsJsSpace);
    } else {
      assert t[0] == ws[0];
      BulletMatch(ws, w, rest, Some(' '), InlineBulletAt);
    }
  }

  /** Text in front of plain text keeps it plain when it holds neither a
      bullet nor a digit. */
  lemma PlainAfterDigitless(p: string, s: string)
    requires Plain(s)
    requires forall i :: 0 <= i < |p| ==> p[i] != Bullet && !IsDigit(p[i])
    ensures Plain(p + s)
  {
    forall i | 0 <= i < |p + s| - 1
      ensures !(IsDigit((p + s)[i]) && (p + s)[i + 1] == '.')
    {
      if i >= |p| {
        assert (p + s)[i] == s[i - |p|] && (p + s)[i + 1] == s[i + 1 - |p|];
      }
    }
  }

  /** A line that starts with a bullet, with or without white space before
      it, becomes a root item: a new line, a dash and the rest of the line. */
  lemma RootLineLeadingBullet(ws: string, w: string, rest: string)
    requires forall i :: 0 <= i < |ws| ==> IsJsSpace(ws[i])
    requires forall i :: 0 <= i < |w| ==> IsJsSpace(w[i])
    requires rest == [] || !IsJsSpace(rest[0])
    requires Plain(rest)
    ensures RootLine(ws + [Bullet] + w + rest) == "\n- " + rest
  {
    var pre := ws + [Bullet] + w;
    assert ws + [Bullet] + w + rest == pre + rest;
    RootBulletMatch(ws, w, rest);
    ReplaceAllAtParts(pre, rest, None, RootBulletAt, BulletRep(""));
    PlainUnchanged(rest, Some(pre[|pre| - 1]), RootBulletAt, BulletRep(""));
    assert BulletRep("")(pre) == "\n- ";
    assert ReplaceAll(pre + rest, None, RootBulletAt, BulletRep("")) == "\n- " + rest;
    PlainAfterDigitless("\n- ", rest);
    PlainUnchanged("\n- " + rest, None, RootNumberAt, NumberRep(""));
  }

  /** "• eggs" on a line of its own becomes the root item "- eggs". */
  lemma RootLineBulletExample()
    ensures RootLine([Bullet] + " eggs") == "\n- eggs"
  {
    assert [Bullet] + " eggs" == [] + [Bullet] + " " + "eggs";
    assert Plain("eggs");
    RootLineLeadingBullet([], " ", "eggs");
  }

  /** "- milk • eggs" is a list item whose inline bullet becomes a
      sub-item two spaces deeper. */
  lemma ListLineSplitsBullet()
    ensures ListLine("- milk \U{2022} eggs", ListMatch(0, 1)) == "- milk\n  - eggs"
  {
    SplitsBulletText();
    BulletRewrites();
    SubItemText();
  }

  lemma BulletRewrites()
    ensures ListRewrites(" milk" + (" " + [Bullet] + " " + "eggs"), "  ") == " milk\n  - eggs"
  {
    InlineBulletBecomesItem(" milk", " ", " ", "eggs", "  ", InlineBulletAt);
    SubItemText();
    PlainTextHasNoNumber(" milk\n  - eggs", None, NumberRep("  "));
  }

  lemma SplitsBulletText()
    ensures "- milk \U{2022} eggs"[..1] == "-"
    ensures "- milk \U{2022} eggs"[1..] == " milk" + (" " + [Bullet] + " " + "eggs")
    ensures "- milk \U{2022} eggs"[..0] + "  " == "  "
  {
  }

  lemma SubItemText()
    ensures " milk" + ("\n" + "  " + "- " + "eggs") == " milk\n  - eggs"
    ensures "-" + " milk\n  - eggs" == "- milk\n  - eggs"
  {
  }
}
