/** `DynastyConnector`: configured paths (each read as RSS or HTML), or
    three feed paths and then four HTML listings as fallback. */
module Dynasty {
  import opened Wrappers
  import opened Text
  import opened Calendar
  import opened DateExtract
  import opened Connector
  import FetchPolicy

  const Platform := "dynasty"

  /** `_extract_body`'s table, in dict order. */
  const Bodies: seq<(string, string)> := [
    ("valtuusto", "Valtuusto"),
    ("hallitus", "Hallitus"),
    ("ympäristö", "Ympäristölautakunta"),
    ("tekninen", "Tekninen lautakunta"),
    ("kaavoitus", "Kaavoituslautakunta"),
    ("rakennus", "Rakennuslautakunta"),
    ("lupa", "Lupalautakunta"),
    ("hyvinvointi", "Hyvinvointilautakunta"),
    ("sivistys", "Sivistyslautakunta"),
    ("tarkastus", "Tarkastuslautakunta"),
    ("maakuntahallitus", "Maakuntahallitus"),
    ("maakuntavaltuusto", "Maakuntavaltuusto")
  ]

  /** `doc_type_map` of `_parse_rss` and `_parse_html` (no "zoning"). */
  const DocTypes: seq<(string, string)> := [
    ("meetings", "minutes"),
    ("agendas", "agenda"),
    ("officer_decisions", "decision"),
    ("announcements", "announcement")
  ]

  const LinkPatterns: seq<string> := ["docid=", "kokession", "meeting", "official", "htmtxt", "download"]

  const FrameKeywords: seq<string> := ["kokous", "meeting", "official", "announcement"]

  const RssPaths: seq<string> := ["/cgi/DREQUEST.PHP?page=rss/meetingrss", "/d10/kokous/TELIASES.HTM", "/rss"]

  const ListingPaths: seq<(string, string)> := [
    ("/cgi/DREQUEST.PHP?page=meeting_frames", "meetings"),
    ("/cgi/DREQUEST.PHP?page=meeting_handlers&id=", "meetings"),
    ("/kokous/", "meetings"),
    ("/esityslista/", "agendas")
  ]

  function InternalDocType(docType: string): (r: string)
    ensures docType == "meetings" ==> r == "minutes"
    ensures docType == "agendas" ==> r == "agenda"
    ensures docType == "officer_decisions" ==> r == "decision"
    ensures docType == "announcements" ==> r == "announcement"
    ensures docType !in {"meetings", "agendas", "officer_decisions", "announcements"} ==> r == "minutes"
  {
    LookupOr(DocTypes, docType, "minutes")
  }

  /** A response is read as a feed when its content type mentions "xml"
      or its first 500 characters hold "<rss". */
  predicate LooksLikeRss(resp: FetchPolicy.Response) {
    Contains(resp.contentType, "xml") || Contains(Prefix(resp.text, 500), "<rss")
  }

  // ---------------------------------------------------------------- RSS

  /** One feed entry: every entry is kept, link-less ones included, with
      no files yet. */
  function RssDoc(env: Env, cfg: Config, internalType: string, e: Entry): (d: DocumentRef)
    ensures d.sourceUrl == e.link && d.fileUrls == [] && d.docType == internalType && d.title == e.title
    ensures d.meetingDate == OrElse(ExtractDate(FinnishThenIso, e.title), e.published)
    ensures d.publishedAt == e.published && d.body == ExtractBody(Bodies, e.title)
  {
    MakeRef(Municipality(cfg), Platform, ExtractBody(Bodies, e.title),
            OrElse(ExtractDate(FinnishThenIso, e.title), e.published), e.published,
            internalType, e.title, e.link, [], "", env.digest)
  }

  function RssDocs(env: Env, cfg: Config, internalType: string, entries: seq<Entry>): (r: seq<DocumentRef>)
    ensures |r| == |entries|
  {
    if entries == [] then []
    else RssDocs(env, cfg, internalType, entries[..|entries| - 1])
         + [RssDoc(env, cfg, internalType, entries[|entries| - 1])]
  }

  /** One document per entry, in feed order. */
  lemma {:induction false} RssDocsPerEntry(env: Env, cfg: Config, internalType: string, entries: seq<Entry>, k: nat)
    requires k < |entries|
    ensures RssDocs(env, cfg, internalType, entries)[k] == RssDoc(env, cfg, internalType, entries[k])
    decreases |entries|
  {
    var n := |entries| - 1;
    var front := RssDocs(env, cfg, internalType, entries[..n]);
    var last := RssDoc(env, cfg, internalType, entries[n]);
    assert RssDocs(env, cfg, internalType, entries) == front + [last];
    if k < n {
      RssDocsPerEntry(env, cfg, internalType, entries[..n], k);
      assert entries[..n][k] == entries[k];
      assert (front + [last])[k] == front[k];
    }
  }

  lemma RssDocsStep(env: Env, cfg: Config, internalType: string, entries: seq<Entry>, i: nat)
    requires i < |entries|
    ensures RssDocs(env, cfg, internalType, entries[..i + 1])
            == RssDocs(env, cfg, internalType, entries[..i]) + [RssDoc(env, cfg, internalType, entries[i])]
  {
    assert entries[..i + 1][..i] == entries[..i];
  }

  /** `_parse_rss(rss_content, doc_type)`. */
  method ParseRss(env: Env, cfg: Config, rssContent: string, docType: string) returns (docs: seq<DocumentRef>)
    ensures docs == RssDocs(env, cfg, InternalDocType(docType), env.feed(rssContent))
  {
    var internalType := InternalDocType(docType);
    var entries := env.feed(rssContent);
    docs := [];
    var i := 0;
    while i < |entries|
      invariant 0 <= i <= |entries|
      invariant docs == RssDocs(env, cfg, internalType, entries[..i])
    {
      RssDocsStep(env, cfg, internalType, entries, i);
      docs := docs + [RssDoc(env, cfg, internalType, entries[i])];
      i := i + 1;
    }
    assert entries[..i] == entries;
  }

  // ----------------------------------------------------- meeting pages

  predicate IsFileHref(href: string) {
    Contains(Lower(href), ".pdf") || Contains(Lower(href), "download") || Contains(Lower(href), "fileshow")
  }

  function FileLinks(env: Env, pageUrl: string, anchors: seq<Anchor>): (r: seq<string>)
    ensures |r| <= |anchors|
  {
    if anchors == [] then []
    else
      var last := anchors[|anchors| - 1];
      FileLinks(env, pageUrl, anchors[..|anchors| - 1]) + (if IsFileHref(last.href) then [env.join(pageUrl, last.href)] else [])
  }

  /** Each file link is a qualifying href resolved against the page. */
  lemma {:induction false} FileLinksFrom(env: Env, pageUrl: string, anchors: seq<Anchor>, u: string)
    requires u in FileLinks(env, pageUrl, anchors)
    ensures exists k :: 0 <= k < |anchors| && IsFileHref(anchors[k].href) && u == env.join(pageUrl, anchors[k].href)
    decreases |anchors|
  {
    var n := |anchors| - 1;
    if !(IsFileHref(anchors[n].href) && u == env.join(pageUrl, anchors[n].href)) {
      FileLinksFrom(env, pageUrl, anchors[..n], u);
      var k :| 0 <= k < n && IsFileHref(anchors[..n][k].href) && u == env.join(pageUrl, anchors[..n][k].href);
      assert anchors[..n][k] == anchors[k];
    }
  }

  /** What `_get_pdf_links(meeting_url)` returns: nothing when the page
      cannot be fetched. */
  function PdfLinksOf(env: Env, meetingUrl: string): (r: seq<string>)
    ensures env.fetch(meetingUrl).None? ==> r == []
  {
    match env.fetch(meetingUrl)
    case None => []
    case Some(resp) => FileLinks(env, meetingUrl, env.html(resp.text).anchors)
  }

  method GetPdfLinks(env: Env, meetingUrl: string) returns (fileUrls: seq<string>)
    ensures fileUrls == PdfLinksOf(env, meetingUrl)
  {
    fileUrls := [];
    match env.fetch(meetingUrl) {
      case None =>
      case Some(resp) =>
        var anchors := env.html(resp.text).anchors;
        var i := 0;
        while i < |anchors|
          invariant 0 <= i <= |anchors|
          invariant fileUrls == FileLinks(env, meetingUrl, anchors[..i])
        {
          if IsFileHref(anchors[i].href) {
            fileUrls := fileUrls + [env.join(meetingUrl, anchors[i].href)];
          }
          assert anchors[..i + 1][..i] == anchors[..i];
          i := i + 1;
        }
        assert anchors[..i] == anchors;
    }
  }

  // --------------------------------------------------------------- HTML

  /** A frame is followed when its `src` is non-empty and names a meeting,
      official or announcement page. */
  predicate FollowsFrame(src: string) {
    src != "" && ContainsAny(Lower(src), FrameKeywords)
  }

  /** The frame loop of `_parse_html`: each qualifying frame is resolved
      against the URL reached so far; a frame that can be fetched replaces
      the page and that URL. The last such frame wins. */
  function FollowFrames(env: Env, frames: seq<string>, page: Html, pageUrl: string): (r: (Html, string))
    decreases |frames|
  {
    if frames == [] then (page, pageUrl)
    else if FollowsFrame(frames[0]) then
      var frameUrl := env.join(pageUrl, frames[0]);
      match env.fetch(frameUrl)
      case None => FollowFrames(env, frames[1..], page, pageUrl)
      case Some(resp) => FollowFrames(env, frames[1..], env.html(resp.text), frameUrl)
    else FollowFrames(env, frames[1..], page, pageUrl)
  }

  /** The links are read from the original page, or from the page that
      the final URL serves. */
  lemma {:induction false} FramesEndOnFetchedPage(env: Env, frames: seq<string>, page: Html, pageUrl: string)
    ensures var r := FollowFrames(env, frames, page, pageUrl);
            r == (page, pageUrl) || (env.fetch(r.1).Some? && r.0 == env.html(env.fetch(r.1).value.text))
    decreases |frames|
  {
    if frames != [] {
      if FollowsFrame(frames[0]) {
        var frameUrl := env.join(pageUrl, frames[0]);
        match env.fetch(frameUrl) {
          case None => FramesEndOnFetchedPage(env, frames[1..], page, pageUrl);
          case Some(resp) => FramesEndOnFetchedPage(env, frames[1..], env.html(resp.text), frameUrl);
        }
      } else {
        FramesEndOnFetchedPage(env, frames[1..], page, pageUrl);
      }
    }
  }

  /** Without a qualifying frame the page is read as it is. */
  lemma {:induction false} NoFrameKeepsPage(env: Env, frames: seq<string>, page: Html, pageUrl: string)
    requires forall k :: 0 <= k < |frames| ==> !FollowsFrame(frames[k])
    ensures FollowFrames(env, frames, page, pageUrl) == (page, pageUrl)
    decreases |frames|
  {
    if frames != [] {
      assert !FollowsFrame(frames[0]);
      NoFrameKeepsPage(env, frames[1..], page, pageUrl);
    }
  }

  /** One anchor of `_parse_html`. */
  function LinkDoc(env: Env, cfg: Config, pageUrl: string, internalType: string, a: Anchor): (r: Option<DocumentRef>)
    ensures r.Some? <==> ContainsAny(Lower(a.href), LinkPatterns) && env.join(pageUrl, a.href) != pageUrl
                         && !StartsWith(a.href, "#")
    ensures r.Some? ==> r.value.sourceUrl == env.join(pageUrl, a.href)
                        && r.value.fileUrls == PdfLinksOf(env, r.value.sourceUrl)
    ensures r.Some? ==> r.value.title == OrDefault(a.text, "Document") && r.value.docType == internalType
    ensures r.Some? ==> r.value.publishedAt == None && r.value.meetingDate == ExtractDate(FinnishThenIso, a.text)
  {
    if !ContainsAny(Lower(a.href), LinkPatterns) then None
    else
      var fullUrl := env.join(pageUrl, a.href);
      if fullUrl == pageUrl || StartsWith(a.href, "#") then None
      else Some(MakeRef(Municipality(cfg), Platform, ExtractBody(Bodies, a.text), ExtractDate(FinnishThenIso, a.text),
                        None, internalType, OrDefault(a.text, "Document"), fullUrl, PdfLinksOf(env, fullUrl), "", env.digest))
  }

  function LinkDocs(env: Env, cfg: Config, pageUrl: string, internalType: string, anchors: seq<Anchor>): (r: seq<DocumentRef>)
    ensures |r| <= |anchors|
  {
    if anchors == [] then []
    else LinkDocs(env, cfg, pageUrl, internalType, anchors[..|anchors| - 1])
         + AsSeq(LinkDoc(env, cfg, pageUrl, internalType, anchors[|anchors| - 1]))
  }

  /** Every listed document comes from an accepted anchor. */
  lemma {:induction false} LinkDocsFrom(env: Env, cfg: Config, pageUrl: string, internalType: string,
                                        anchors: seq<Anchor>, d: DocumentRef)
    requires d in LinkDocs(env, cfg, pageUrl, internalType, anchors)
    ensures exists k :: 0 <= k < |anchors| && LinkDoc(env, cfg, pageUrl, internalType, anchors[k]) == Some(d)
    decreases |anchors|
  {
    var n := |anchors| - 1;
    if d !in AsSeq(LinkDoc(env, cfg, pageUrl, internalType, anchors[n])) {
      LinkDocsFrom(env, cfg, pageUrl, internalType, anchors[..n], d);
      var k :| 0 <= k < n && LinkDoc(env, cfg, pageUrl, internalType, anchors[..n][k]) == Some(d);
      assert anchors[..n][k] == anchors[k];
    }
  }

  /** What `_parse_html` returns: the links of the page reached through
      the frames, resolved against that page's URL. */
  function HtmlDocs(env: Env, cfg: Config, htmlContent: string, pageUrl: string, docType: string): seq<DocumentRef> {
    var page := env.html(htmlContent);
    var reached := FollowFrames(env, page.frames, page, pageUrl);
    LinkDocs(env, cfg, reached.1, InternalDocType(docType), reached.0.anchors)
  }

  /** The frame loop. */
  method FollowFrameLoop(env: Env, frames: seq<string>, page0: Html, pageUrl0: string)
    returns (page: Html, pageUrl: string)
    ensures (page, pageUrl) == FollowFrames(env, frames, page0, pageUrl0)
  {
    page, pageUrl := page0, pageUrl0;
    var i := 0;
    while i < |frames|
      invariant 0 <= i <= |frames|
      invariant FollowFrames(env, frames[i..], page, pageUrl) == FollowFrames(env, frames, page0, pageUrl0)
    {
      var src := frames[i];
      assert frames[i..][0] == src && frames[i..][1..] == frames[i + 1..];
      if FollowsFrame(src) {
        var frameUrl := env.join(pageUrl, src);
        match env.fetch(frameUrl) {
          case Some(resp) =>
            page := env.html(resp.text);
            pageUrl := frameUrl;
          case None =>
        }
      }
      i := i + 1;
    }
  }

  /** The body of the link loop for one anchor. */
  method ParseLink(env: Env, cfg: Config, pageUrl: string, internalType: string, a: Anchor)
    returns (r: Option<DocumentRef>)
    ensures r == LinkDoc(env, cfg, pageUrl, internalType, a)
  {
    if !ContainsAny(Lower(a.href), LinkPatterns) {
      return None;
    }
    var fullUrl := env.join(pageUrl, a.href);
    if fullUrl == pageUrl || StartsWith(a.href, "#") {
      return None;
    }
    var fileUrls := GetPdfLinks(env, fullUrl);
    r := Some(MakeRef(Municipality(cfg), Platform, ExtractBody(Bodies, a.text), ExtractDate(FinnishThenIso, a.text),
                      None, internalType, OrDefault(a.text, "Document"), fullUrl, fileUrls, "", env.digest));
  }

  /** The link loop of `_parse_html` over the page reached. */
  method ParseLinks(env: Env, cfg: Config, pageUrl: string, internalType: string, anchors: seq<Anchor>)
    returns (docs: seq<DocumentRef>)
    ensures docs == LinkDocs(env, cfg, pageUrl, internalType, anchors)
  {
    docs := [];
    var i := 0;
    while i < |anchors|
      invariant 0 <= i <= |anchors|
      invariant docs == LinkDocs(env, cfg, pageUrl, internalType, anchors[..i])
    {
      var r := ParseLink(env, cfg, pageUrl, internalType, anchors[i]);
      LinkDocsStep(env, cfg, pageUrl, internalType, anchors, i);
      if r.Some? {
        docs := docs + [r.value];
      }
      i := i + 1;
    }
    assert anchors[..i] == anchors;
  }

  lemma LinkDocsStep(env: Env, cfg: Config, pageUrl: string, internalType: string, anchors: seq<Anchor>, i: nat)
    requires i < |anchors|
    ensures LinkDocs(env, cfg, pageUrl, internalType, anchors[..i + 1])
            == LinkDocs(env, cfg, pageUrl, internalType, anchors[..i])
               + AsSeq(LinkDoc(env, cfg, pageUrl, internalType, anchors[i]))
  {
    assert anchors[..i + 1][..i] == anchors[..i];
  }

  /** `_parse_html(html_content, base_url, doc_type)`. */
  method ParseHtml(env: Env, cfg: Config, htmlContent: string, baseUrl: string, docType: string)
    returns (docs: seq<DocumentRef>)
    ensures docs == HtmlDocs(env, cfg, htmlContent, baseUrl, docType)
  {
    var soup := env.html(htmlContent);
    var page, pageUrl := FollowFrameLoop(env, soup.frames, soup, baseUrl);
    docs := ParseLinks(env, cfg, pageUrl, InternalDocType(docType), page.anchors);
  }

  // ----------------------------------------------------------- discover

  /** One configured `(doc_type, path)` entry, read as a feed or as HTML. */
  function PathDocs(env: Env, src: Source, docType: string, path: string): (r: seq<DocumentRef>)
    ensures path == "" ==> r == []
    ensures env.fetch(env.join(src.baseUrl, path)).None? ==> r == []
  {
    if path == "" then []
    else
      var url := env.join(src.baseUrl, path);
      match env.fetch(url)
      case None => []
      case Some(resp) =>
        if LooksLikeRss(resp) then RssDocs(env, src.config, InternalDocType(docType), env.feed(resp.text))
        else HtmlDocs(env, src.config, resp.text, url, docType)
  }

  function ConfiguredParts(env: Env, src: Source): (r: seq<seq<DocumentRef>>)
    ensures |r| == |src.config.paths|
    ensures forall k :: 0 <= k < |r| ==> r[k] == PathDocs(env, src, src.config.paths[k].0, src.config.paths[k].1)
  {
    seq(|src.config.paths|, k requires 0 <= k < |src.config.paths| =>
      PathDocs(env, src, src.config.paths[k].0, src.config.paths[k].1))
  }

  /** A fallback feed path: used only when the response looks like a feed. */
  function FeedDocs(env: Env, src: Source, path: string): (r: seq<DocumentRef>)
    ensures r != [] ==> env.fetch(env.join(src.baseUrl, path)).Some?
                        && LooksLikeRss(env.fetch(env.join(src.baseUrl, path)).value)
  {
    match env.fetch(env.join(src.baseUrl, path))
    case None => []
    case Some(resp) => if LooksLikeRss(resp) then RssDocs(env, src.config, "minutes", env.feed(resp.text)) else []
  }

  /** A fallback listing: parsed only when its content type mentions html. */
  function ListingDocs(env: Env, src: Source, path: string, docType: string): (r: seq<DocumentRef>)
    ensures r != [] ==> env.fetch(env.join(src.baseUrl, path)).Some?
                        && Contains(Lower(env.fetch(env.join(src.baseUrl, path)).value.contentType), "html")
  {
    var url := env.join(src.baseUrl, path);
    match env.fetch(url)
    case None => []
    case Some(resp) => if Contains(Lower(resp.contentType), "html") then HtmlDocs(env, src.config, resp.text, url, docType) else []
  }

  function FeedParts(env: Env, src: Source): (r: seq<seq<DocumentRef>>)
    ensures |r| == |RssPaths|
    ensures forall k :: 0 <= k < |r| ==> r[k] == FeedDocs(env, src, RssPaths[k])
  {
    seq(|RssPaths|, k requires 0 <= k < |RssPaths| => FeedDocs(env, src, RssPaths[k]))
  }

  function ListingParts(env: Env, src: Source): (r: seq<seq<DocumentRef>>)
    ensures |r| == |ListingPaths|
    ensures forall k :: 0 <= k < |r| ==> r[k] == ListingDocs(env, src, ListingPaths[k].0, ListingPaths[k].1)
  {
    seq(|ListingPaths|, k requires 0 <= k < |ListingPaths| => ListingDocs(env, src, ListingPaths[k].0, ListingPaths[k].1))
  }

  function FallbackDocs(env: Env, src: Source): seq<DocumentRef> {
    var feeds := FirstNonEmptyPart(FeedParts(env, src));
    if feeds != [] then feeds else FirstNonEmptyPart(ListingParts(env, src))
  }

  /** What `discover` returns. */
  function Discovered(env: Env, src: Source): seq<DocumentRef> {
    if src.config.paths != [] then Flatten(ConfiguredParts(env, src)) else FallbackDocs(env, src)
  }

  /** One configured path: fetched and parsed as a feed or as HTML. */
  method FetchPath(env: Env, src: Source, docType: string, path: string) returns (part: seq<DocumentRef>)
    ensures part == PathDocs(env, src, docType, path)
  {
    part := [];
    if path != "" {
      var url := env.join(src.baseUrl, path);
      match env.fetch(url) {
        case Some(response) =>
          if LooksLikeRss(response) {
            part := ParseRss(env, src.config, response.text, docType);
          } else {
            part := ParseHtml(env, src.config, response.text, url, docType);
          }
        case None =>
      }
    }
  }

  method DiscoverConfigured(env: Env, src: Source) returns (docs: seq<DocumentRef>)
    ensures docs == Flatten(ConfiguredParts(env, src))
  {
    var paths := src.config.paths;
    ghost var parts := ConfiguredParts(env, src);
    docs := [];
    var i := 0;
    while i < |paths|
      invariant 0 <= i <= |paths|
      invariant docs == Flatten(parts[..i])
    {
      var (docType, path) := paths[i];
      var part := FetchPath(env, src, docType, path);
      FlattenStep(parts, i);
      docs := docs + part;
      i := i + 1;
    }
    assert parts[..i] == parts;
  }

  /** One fallback feed path. */
  method FetchFeed(env: Env, src: Source, path: string) returns (part: seq<DocumentRef>)
    ensures part == FeedDocs(env, src, path)
  {
    part := [];
    match env.fetch(env.join(src.baseUrl, path)) {
      case Some(response) =>
        if LooksLikeRss(response) {
          part := ParseRss(env, src.config, response.text, "meetings");
        }
      case None =>
    }
  }

  method DiscoverFeeds(env: Env, src: Source) returns (docs: seq<DocumentRef>)
    ensures docs == FirstNonEmptyPart(FeedParts(env, src))
  {
    ghost var parts := FeedParts(env, src);
    docs := [];
    var i := 0;
    while i < |RssPaths|
      invariant 0 <= i <= |RssPaths|
      invariant docs == []
      invariant forall j :: 0 <= j < i ==> parts[j] == []
    {
      docs := FetchFeed(env, src, RssPaths[i]);
      if docs != [] {
        FirstNonEmptyAt(parts, i);
        return;
      }
      i := i + 1;
    }
  }

  /** One fallback listing path. */
  method FetchListing(env: Env, src: Source, listingPath: string, docType: string) returns (part: seq<DocumentRef>)
    ensures part == ListingDocs(env, src, listingPath, docType)
  {
    part := [];
    var listingUrl := env.join(src.baseUrl, listingPath);
    match env.fetch(listingUrl) {
      case Some(response) =>
        if Contains(Lower(response.contentType), "html") {
          part := ParseHtml(env, src.config, response.text, listingUrl, docType);
        }
      case None =>
    }
  }

  method DiscoverListings(env: Env, src: Source) returns (docs: seq<DocumentRef>)
    ensures docs == FirstNonEmptyPart(ListingParts(env, src))
  {
    ghost var parts := ListingParts(env, src);
    docs := [];
    var i := 0;
    while i < |ListingPaths|
      invariant 0 <= i <= |ListingPaths|
      invariant docs == []
      invariant forall j :: 0 <= j < i ==> parts[j] == []
    {
      var (listingPath, docType) := ListingPaths[i];
      docs := FetchListing(env, src, listingPath, docType);
      if docs != [] {
        FirstNonEmptyAt(parts, i);
        return;
      }
      i := i + 1;
    }
  }

  /** `discover()`. */
  method Discover(env: Env, src: Source) returns (docs: seq<DocumentRef>)
    ensures docs == Discovered(env, src)
  {
    if src.config.paths != [] {
      docs := DiscoverConfigured(env, src);
    } else {
      docs := DiscoverFeeds(env, src);
      if docs == [] {
        docs := DiscoverListings(env, src);
      }
    }
  }

  /** With configured paths, every non-empty path contributes its own
      documents and a failing one stops nothing. */
  lemma ConfiguredCoversEveryPath(env: Env, src: Source, d: DocumentRef)
    requires src.config.paths != []
    ensures d in Discovered(env, src) <==>
              exists k :: 0 <= k < |src.config.paths|
                && d in PathDocs(env, src, src.config.paths[k].0, src.config.paths[k].1)
  {
    var parts := ConfiguredParts(env, src);
    if d in Discovered(env, src) {
      var k :| 0 <= k < |parts| && d in parts[k];
      assert d in PathDocs(env, src, src.config.paths[k].0, src.config.paths[k].1);
    }
    if exists k :: 0 <= k < |src.config.paths| && d in PathDocs(env, src, src.config.paths[k].0, src.config.paths[k].1) {
      var k :| 0 <= k < |src.config.paths| && d in PathDocs(env, src, src.config.paths[k].0, src.config.paths[k].1);
      assert d in parts[k];
    }
  }

  /** Without paths the three feeds and then the four listings are tried
      as one list of candidates: the first that yields documents decides. */
  lemma FallbackIsOneSearch(env: Env, src: Source)
    requires src.config.paths == []
    ensures Discovered(env, src) == FirstNonEmptyPart(FeedParts(env, src) + ListingParts(env, src))
  {
    FirstNonEmptyAppend(FeedParts(env, src), ListingParts(env, src));
  }

  /** "zoning" is not in this connector's map. */
  lemma ZoningIsMinutes()
    ensures InternalDocType("zoning") == "minutes"
  {
  }

  /** "maakuntahallitus" contains "hallitus" and "maakuntavaltuusto"
      contains "valtuusto", which come first: these bodies are never
      returned. */
  lemma MaakuntaBodiesUnreachable(text: string)
    ensures ExtractBody(Bodies, text) != "Maakuntahallitus"
    ensures ExtractBody(Bodies, text) != "Maakuntavaltuusto"
  {
    assert At("maakuntahallitus", "hallitus", 8);
    assert At("maakuntavaltuusto", "valtuusto", 8);
    ShadowedBodyUnreachable(Bodies, text, 1, 10);
    ShadowedBodyUnreachable(Bodies, text, 0, 11);
  }
}
