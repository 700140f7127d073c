/** The sitemap route: the list of the site's URLs (the static pages, then
    one page per waypoint, book, hike and writing) serialised as a
    Sitemaps 0.9 `urlset` document. */
module Sitemap {
  import opened Text

  const Site: string := "https://andreavassallo.it"

  /** The static pages, in the order listed. */
  const StaticPages: seq<string> := [
    Site + "/", Site + "/about/", Site + "/atlas/", Site + "/books/",
    Site + "/hikes/", Site + "/waypoints/", Site + "/writings/", Site + "/privacy/"]

  /** The page of the entry `id` of the collection `section`: a page of the
      site, with a trailing slash, on one line when its parts are. */
  function EntryUrl(section: string, id: string): (u: string)
    ensures StartsWith(u, Site + "/") && EndsWith(u, "/")
    ensures '\n' !in section && '\n' !in id ==> '\n' !in u
  {
    var u := Site + "/" + section + "/" + id + "/";
    assert u == (Site + "/") + (section + "/" + id + "/");
    assert forall c :: c in u ==> c in Site || c == '/' || c in section || c in id;
    u
  }

  function SectionUrls(section: string, ids: seq<string>): (r: seq<string>)
    ensures |r| == |ids|
    ensures forall i :: 0 <= i < |ids| ==> r[i] == EntryUrl(section, ids[i])
  {
    seq(|ids|, i requires 0 <= i < |ids| => EntryUrl(section, ids[i]))
  }

  /** The `urls` list of the route, from the ids of the four collections as
      the content layer returns them. */
  function Urls(waypoints: seq<string>, books: seq<string>, hikes: seq<string>,
                writings: seq<string>): (r: seq<string>)
    ensures |r| == |StaticPages| + |waypoints| + |books| + |hikes| + |writings|
    ensures r[..|StaticPages|] == StaticPages
    ensures forall i :: 0 <= i < |waypoints| ==>
      r[|StaticPages| + i] == EntryUrl("waypoints", waypoints[i])
    ensures forall i :: 0 <= i < |books| ==>
      r[|StaticPages| + |waypoints| + i] == EntryUrl("books", books[i])
    ensures forall i :: 0 <= i < |hikes| ==>
      r[|StaticPages| + |waypoints| + |books| + i] == EntryUrl("hikes", hikes[i])
    ensures forall i :: 0 <= i < |writings| ==>
      r[|StaticPages| + |waypoints| + |books| + |hikes| + i] == EntryUrl("writings", writings[i])
  {
    StaticPages + SectionUrls("waypoints", waypoints) + SectionUrls("books", books)
    + SectionUrls("hikes", hikes) + SectionUrls("writings", writings)
  }

  // ---------------------------------------------------------------------------
  // The document

  const XmlDeclaration: string := "<?xml version=\"1.0\" encoding=\"UTF-8\"?>"

  /** The lines of the document before the first `<url>` block. */
  const UrlsetOpen: string := "<urlset xmlns=\"http://www.sitemaps.org/schemas/sitemap/0.9\""

  const HeaderLines: seq<string> := [
    XmlDeclaration,
    UrlsetOpen,
    "        xmlns:news=\"http://www.google.com/schemas/sitemap-news/0.9\"",
    "        xmlns:xhtml=\"http://www.w3.org/1999/xhtml\"",
    "        xmlns:image=\"http://www.google.com/schemas/sitemap-image/1.1\"",
    "        xmlns:video=\"http://www.google.com/schemas/sitemap-video/1.1\">"]

  const UrlsetClose: string := "</urlset>"

  const LocOpen: string := "    <loc>"
  const LocClose: string := "</loc>"

  /** The three lines of the `<url>` block of `loc`. */
  function UrlLines(loc: string): seq<string>
  {
    ["  <url>", LocOpen + loc + LocClose, "  </url>"]
  }

  function UrlBlock(loc: string): string
  {
    Join(UrlLines(loc), "\n")
  }

  /** The `<url>` block of each URL, in order. */
  function Blocks(urls: seq<string>): (r: seq<string>)
    ensures |r| == |urls|
  {
    seq(|urls|, i requires 0 <= i < |urls| => UrlBlock(urls[i]))
  }

  /** The blocks of all the URLs, one after the other, joined by "\n"; when
      no URL spans two lines, reading the `<loc>` lines back gives the URLs
      in order. */
  function Body(urls: seq<string>): (r: string)
    ensures OneLine(urls) ==> LocsOf(Split(r, '\n')) == urls
  {
    BlocksLocs(urls);
    Join(Blocks(urls), "\n")
  }

  /** The document the route responds with. */
  function SitemapXml(urls: seq<string>): (r: string)
    ensures StartsWith(r, XmlDeclaration + "\n" + UrlsetOpen)
    ensures EndsWith(r, UrlsetClose)
  {
    var tail := "\n" + Join(HeaderLines[2..], "\n") + "\n" + Body(urls) + "\n";
    HeaderStart();
    HeaderRegroup(XmlDeclaration + "\n" + UrlsetOpen, "\n" + Join(HeaderLines[2..], "\n"),
                  Body(urls), UrlsetClose);
    ConcatEnds(XmlDeclaration + "\n" + UrlsetOpen, tail, UrlsetClose);
    Join(HeaderLines, "\n") + "\n" + Body(urls) + "\n" + UrlsetClose
  }

  lemma HeaderStart()
    ensures Join(HeaderLines, "\n")
            == XmlDeclaration + "\n" + UrlsetOpen + ("\n" + Join(HeaderLines[2..], "\n"))
  {
    assert HeaderLines[1..][1..] == HeaderLines[2..];
    assert Join(HeaderLines[1..], "\n") == UrlsetOpen + "\n" + Join(HeaderLines[2..], "\n");
  }

  lemma HeaderRegroup(a: string, b: string, c: string, d: string)
    ensures a + b + "\n" + c + "\n" + d == a + (b + "\n" + c + "\n") + d
  {
  }


  // ---------------------------------------------------------------------------
  // Reading the document back

  /** The URL of a `<loc>` line. */
  function LocOf(line: string): string
  {
    if |LocOpen| + |LocClose| <= |line| then line[|LocOpen|..|line| - |LocClose|] else line
  }

  /** The URLs of a run of `<url>` blocks, three lines each. */
  function LocsOf(lines: seq<string>): seq<string>
    decreases |lines|
  {
    if |lines| < 3 then [] else [LocOf(lines[1])] + LocsOf(lines[3..])
  }

  /** The URLs a reader finds in a sitemap: after the header and before the
      closing line, the blocks of three lines. */
  function Locs(xml: string): seq<string>
  {
    var head := Join(HeaderLines, "\n") + "\n";
    var foot := "\n" + UrlsetClose;
    if StartsWith(xml, head) && EndsWith(xml, foot) && |head| + |foot| <= |xml| then
      LocsOf(Split(xml[|head|..|xml| - |foot|], '\n'))
    else []
  }

  /** No URL spans more than one line. */
  predicate OneLine(urls: seq<string>)
  {
    forall i :: 0 <= i < |urls| ==> '\n' !in urls[i]
  }

  lemma LocLineOneLine(loc: string)
    requires '\n' !in loc
    ensures '\n' !in LocOpen + loc + LocClose
  {
    assert forall c :: c in LocOpen + loc + LocClose ==> c in LocOpen || c in loc || c in LocClose;
  }

  /** A block splits back into its three lines. */
  lemma UrlBlockLines(loc: string)
    requires '\n' !in loc
    ensures Split(UrlBlock(loc), '\n') == UrlLines(loc)
  {
    LocLineOneLine(loc);
    SplitJoin(UrlLines(loc), '\n');
  }

  lemma LocOfLine(loc: string)
    ensures LocOf(LocOpen + loc + LocClose) == loc
  {
  }

  /** The joined blocks read back as the URLs they were written from, in
      order. */
  lemma {:induction false} BlocksLocs(urls: seq<string>)
    ensures OneLine(urls) ==> LocsOf(Split(Join(Blocks(urls), "\n"), '\n')) == urls
    decreases |urls|
  {
    if OneLine(urls) && urls != [] {
      var blocks := Blocks(urls);
      UrlBlockLines(urls[0]);
      LocOfLine(urls[0]);
      if |urls| > 1 {
        var rest := urls[1..];
        assert blocks[1..] == Blocks(rest);
        assert Join(blocks, "\n") == UrlBlock(urls[0]) + "\n" + Join(Blocks(rest), "\n");
        BlocksLocs(rest);
        SplitAppend(UrlBlock(urls[0]), Join(Blocks(rest), "\n"), '\n');
        var lines := UrlLines(urls[0]) + Split(Join(Blocks(rest), "\n"), '\n');
        assert lines[1] == LocOpen + urls[0] + LocClose;
        assert lines[3..] == Split(Join(Blocks(rest), "\n"), '\n');
        assert [urls[0]] + rest == urls;
      }
    }
  }

  lemma Middle(a: string, m: string, b: string)
    ensures (a + m + b)[|a|..|a + m + b| - |b|] == m
  {
  }

  /** A reader of the sitemap finds exactly the URLs it was written from,
      in the same order. */
  lemma SitemapLocs(urls: seq<string>)
    requires OneLine(urls)
    ensures Locs(SitemapXml(urls)) == urls
  {
    var head := Join(HeaderLines, "\n") + "\n";
    var foot := "\n" + UrlsetClose;
    var xml := SitemapXml(urls);
    assert xml == head + Body(urls) + foot;
    ConcatEnds(head, Body(urls), foot);
    Middle(head, Body(urls), foot);
  }

  /** No static page has a line break. */
  lemma StaticPagesOneLine()
    ensures OneLine(StaticPages)
  {
    forall i | 0 <= i < |StaticPages|
      ensures '\n' !in StaticPages[i]
    {
      var tail := StaticPages[i][|Site|..];
      assert StaticPages[i] == Site + tail;
      assert forall c :: c in tail ==> c == '/' || 'a' <= c <= 'z';
    }
  }

  /** No URL of the route has a line break when no id has one. */
  lemma UrlsOneLine(waypoints: seq<string>, books: seq<string>, hikes: seq<string>,
                    writings: seq<string>)
    requires OneLine(waypoints) && OneLine(books) && OneLine(hikes) && OneLine(writings)
    ensures OneLine(Urls(waypoints, books, hikes, writings))
  {
    StaticPagesOneLine();
    SectionOneLine("waypoints", waypoints);
    SectionOneLine("books", books);
    SectionOneLine("hikes", hikes);
    SectionOneLine("writings", writings);
    var a := StaticPages + SectionUrls("waypoints", waypoints);
    OneLineAppend(StaticPages, SectionUrls("waypoints", waypoints));
    OneLineAppend(a, SectionUrls("books", books));
    var b := a + SectionUrls("books", books);
    OneLineAppend(b, SectionUrls("hikes", hikes));
    OneLineAppend(b + SectionUrls("hikes", hikes), SectionUrls("writings", writings));
  }

  lemma SectionOneLine(section: string, ids: seq<string>)
    requires '\n' !in section && OneLine(ids)
    ensures OneLine(SectionUrls(section, ids))
  {
  }

  lemma OneLineAppend(a: seq<string>, b: seq<string>)
    requires OneLine(a) && OneLine(b)
    ensures OneLine(a + b)
  {
    assert forall i :: |a| <= i < |a + b| ==> (a + b)[i] == b[i - |a|];
  }

  /** The site's sitemap lists the eight static pages and then one page per
      entry: 8 + the number of entries URLs, each read back in order. */
  lemma SiteSitemap(waypoints: seq<string>, books: seq<string>, hikes: seq<string>,
                    writings: seq<string>)
    requires OneLine(waypoints) && OneLine(books) && OneLine(hikes) && OneLine(writings)
    ensures var urls := Urls(waypoints, books, hikes, writings);
      && Locs(SitemapXml(urls)) == urls
      && |Locs(SitemapXml(urls))| == 8 + |waypoints| + |books| + |hikes| + |writings|
      && Locs(SitemapXml(urls))[..8] == StaticPages
  {
    UrlsOneLine(waypoints, books, hikes, writings);
    SitemapLocs(Urls(waypoints, books, hikes, writings));
  }
}
