/** `CloudNCConnector`: configured listing paths, or the `/meetingrss`
    feed with two HTML listings as fallback. */
module CloudNC {
  import opened Wrappers
  import opened Text
  import opened Calendar
  import opened DateExtract
  import opened Connector

  const Platform := "cloudnc"

  /** `_extract_body`'s table, in dict order. */
  const Bodies: seq<(string, string)> := [
    ("kaupunginvaltuusto", "Kaupunginvaltuusto"),
    ("kunnanvaltuusto", "Kunnanvaltuusto"),
    ("valtuusto", "Valtuusto"),
    ("kaupunginhallitus", "Kaupunginhallitus"),
    ("kunnanhallitus", "Kunnanhallitus"),
    ("hallitus", "Hallitus"),
    ("ympäristölautakunta", "Ympäristölautakunta"),
    ("ympäristö", "Ympäristölautakunta"),
    ("tekninen lautakunta", "Tekninen lautakunta"),
    ("tekninen", "Tekninen lautakunta"),
    ("kaavoituslautakunta", "Kaavoituslautakunta"),
    ("rakennuslautakunta", "Rakennuslautakunta"),
    ("rakennus", "Rakennuslautakunta"),
    ("tarkastuslautakunta", "Tarkastuslautakunta"),
    ("hyvinvointilautakunta", "Hyvinvointilautakunta")
  ]

  /** `doc_type_map` of `_parse_html`. */
  const DocTypes: seq<(string, string)> := [
    ("meetings", "minutes"),
    ("agendas", "agenda"),
    ("officer_decisions", "decision"),
    ("announcements", "announcement"),
    ("zoning", "zoning")
  ]

  const LinkKeywords: seq<string> :=
    ["kokous", "meeting", "download", "poytakirja", "esityslista", "päätös", "kuulutus", "kaava", "asiakirja"]

  /** Hints that a link without files still is a document page. */
  const DocumentHints: seq<string> := ["docid", "document", "file"]

  const RssPath := "/meetingrss"

  const DefaultPaths: seq<(string, string)> := [("/fi-FI/Toimielimet", "meetings"), ("/fi-FI", "meetings")]

  /** `doc_type_map.get(doc_type, "minutes")`. */
  function InternalDocType(docType: string): (r: string)
    ensures docType == "meetings" ==> r == "minutes"
    ensures docType == "agendas" ==> r == "agenda"
    ensures docType == "officer_decisions" ==> r == "decision"
    ensures docType == "announcements" ==> r == "announcement"
    ensures docType == "zoning" ==> r == "zoning"
    ensures docType !in {"meetings", "agendas", "officer_decisions", "announcements", "zoning"} ==> r == "minutes"
  {
    LookupOr(DocTypes, docType, "minutes")
  }

  // ---------------------------------------------------------------- RSS

  /** The enclosures whose type starts with `application/pdf`, by href. */
  function PdfEnclosures(encs: seq<Enclosure>): (r: seq<string>)
    ensures |r| <= |encs|
  {
    if encs == [] then []
    else
      var last := encs[|encs| - 1];
      PdfEnclosures(encs[..|encs| - 1]) + (if StartsWith(last.mimeType, "application/pdf") then [last.href] else [])
  }

  /** One feed entry of `_parse_rss`: kept only when it has a link, always
      as "minutes", dated by its title or else by its publication time. */
  function RssDoc(env: Env, cfg: Config, e: Entry): (r: Option<DocumentRef>)
    ensures r.Some? <==> e.link != ""
    ensures r.Some? ==> r.value.docType == "minutes" && r.value.sourceUrl == e.link
    ensures r.Some? ==> r.value.fileUrls == PdfEnclosures(e.enclosures) && r.value.title == e.title
    ensures r.Some? ==> r.value.publishedAt == e.published
    ensures r.Some? ==> r.value.meetingDate == OrElse(ExtractDate(FinnishThenIso, e.title), e.published)
    ensures r.Some? ==> r.value.body == ExtractBody(Bodies, e.title) && r.value.municipality == Municipality(cfg)
  {
    if e.link == "" then None
    else Some(MakeRef(Municipality(cfg), Platform, ExtractBody(Bodies, e.title),
                      OrElse(ExtractDate(FinnishThenIso, e.title), e.published), e.published,
                      "minutes", e.title, e.link, PdfEnclosures(e.enclosures), "", env.digest))
  }

  /** `_parse_rss` over the feed's entries: one document per linked entry,
      in feed order. */
  function RssDocs(env: Env, cfg: Config, entries: seq<Entry>): (r: seq<DocumentRef>)
    ensures |r| <= |entries|
  {
    if entries == [] then []
    else RssDocs(env, cfg, entries[..|entries| - 1]) + AsSeq(RssDoc(env, cfg, entries[|entries| - 1]))
  }

  /** Every document of the feed comes from one of its entries. */
  lemma {:induction false} RssDocsFrom(env: Env, cfg: Config, entries: seq<Entry>, d: DocumentRef)
    requires d in RssDocs(env, cfg, entries)
    ensures exists k :: 0 <= k < |entries| && RssDoc(env, cfg, entries[k]) == Some(d)
    decreases |entries|
  {
    var n := |entries| - 1;
    if d !in AsSeq(RssDoc(env, cfg, entries[n])) {
      RssDocsFrom(env, cfg, entries[..n], d);
      var k :| 0 <= k < n && RssDoc(env, cfg, entries[..n][k]) == Some(d);
      assert entries[..n][k] == entries[k];
    }
  }

  /** Every document from the feed is "minutes" for a linked entry. */
  lemma RssDocsAreLinkedMinutes(env: Env, cfg: Config, entries: seq<Entry>, d: DocumentRef)
    requires d in RssDocs(env, cfg, entries)
    ensures d.docType == "minutes" && d.sourceUrl != ""
    ensures exists k :: 0 <= k < |entries| && entries[k].link == d.sourceUrl
  {
    RssDocsFrom(env, cfg, entries, d);
  }

  /** The enclosure loop of `_parse_rss`. */
  method CollectPdfEnclosures(encs: seq<Enclosure>) returns (fileUrls: seq<string>)
    ensures fileUrls == PdfEnclosures(encs)
  {
    fileUrls := [];
    var j := 0;
    while j < |encs|
      invariant 0 <= j <= |encs|
      invariant fileUrls == PdfEnclosures(encs[..j])
    {
      if StartsWith(encs[j].mimeType, "application/pdf") {
        fileUrls := fileUrls + [encs[j].href];
      }
      assert encs[..j + 1][..j] == encs[..j];
      j := j + 1;
    }
    assert encs[..j] == encs;
  }

  /** One iteration of the entry loop of `_parse_rss`. */
  method ParseRssEntry(env: Env, cfg: Config, e: Entry) returns (r: Option<DocumentRef>)
    ensures r == RssDoc(env, cfg, e)
  {
    var fileUrls := CollectPdfEnclosures(e.enclosures);
    if e.link == "" {
      return None;
    }
    var meetingDate := OrElse(ExtractDate(FinnishThenIso, e.title), e.published);
    r := Some(MakeRef(Municipality(cfg), Platform, ExtractBody(Bodies, e.title), meetingDate,
                      e.published, "minutes", e.title, e.link, fileUrls, "", env.digest));
  }

  /** `_parse_rss(rss_content)`. */
  method ParseRss(env: Env, cfg: Config, rssContent: string) returns (docs: seq<DocumentRef>)
    ensures docs == RssDocs(env, cfg, env.feed(rssContent))
  {
    var entries := env.feed(rssContent);
    docs := [];
    var i := 0;
    while i < |entries|
      invariant 0 <= i <= |entries|
      invariant docs == RssDocs(env, cfg, entries[..i])
    {
      var r := ParseRssEntry(env, cfg, entries[i]);
      assert entries[..i + 1][..i] == entries[..i];
      assert RssDocs(env, cfg, entries[..i + 1]) == docs + AsSeq(r);
      docs := docs + AsSeq(r);
      i := i + 1;
    }
    assert entries[..i] == entries;
  }

  // --------------------------------------------------------------- HTML

  /** The links of a meeting page matching `\.pdf|download` (any case),
      resolved against the page. */
  predicate IsPdfHref(href: string) {
    Contains(Lower(href), ".pdf") || Contains(Lower(href), "download")
  }

  function PdfLinks(env: Env, pageUrl: string, anchors: seq<Anchor>): (r: seq<string>)
    ensures |r| <= |anchors|
  {
    if anchors == [] then []
    else
      var last := anchors[|anchors| - 1];
      PdfLinks(env, pageUrl, anchors[..|anchors| - 1]) + (if IsPdfHref(last.href) then [env.join(pageUrl, last.href)] else [])
  }

  method CollectPdfLinks(env: Env, pageUrl: string, anchors: seq<Anchor>) returns (urls: seq<string>)
    ensures urls == PdfLinks(env, pageUrl, anchors)
  {
    urls := [];
    var i := 0;
    while i < |anchors|
      invariant 0 <= i <= |anchors|
      invariant urls == PdfLinks(env, pageUrl, anchors[..i])
    {
      if IsPdfHref(anchors[i].href) {
        urls := urls + [env.join(pageUrl, anchors[i].href)];
      }
      assert anchors[..i + 1][..i] == anchors[..i];
      i := i + 1;
    }
    assert anchors[..i] == anchors;
  }

  /** The files of a linked page: its PDF links when it can be fetched,
      otherwise the link itself if it names a PDF. */
  function MeetingFiles(env: Env, fullUrl: string, href: string): (r: seq<string>)
    ensures env.fetch(fullUrl).None? ==> (r == [] <==> !Contains(Lower(href), ".pdf"))
    ensures env.fetch(fullUrl).None? && r != [] ==> r == [fullUrl]
  {
    match env.fetch(fullUrl)
    case Some(resp) => PdfLinks(env, fullUrl, env.html(resp.text).anchors)
    case None => if Contains(Lower(href), ".pdf") then [fullUrl] else []
  }

  /** One anchor of `_parse_html`. */
  function LinkDoc(env: Env, cfg: Config, pageUrl: string, internalType: string, a: Anchor): (r: Option<DocumentRef>)
    ensures r.Some? ==> ContainsAny(Lower(a.href), LinkKeywords) || ContainsAny(Lower(a.text), LinkKeywords)
    ensures r.Some? ==> env.join(pageUrl, a.href) != pageUrl && !Contains(a.href, "#")
    ensures r.Some? ==> r.value.fileUrls != [] || ContainsAny(Lower(a.href), DocumentHints)
    ensures r.Some? ==> r.value.sourceUrl == env.join(pageUrl, a.href)
                        && r.value.fileUrls == MeetingFiles(env, r.value.sourceUrl, a.href)
    ensures r.Some? ==> r.value.title == OrDefault(a.text, "Document") && r.value.docType == internalType
    ensures r.Some? ==> r.value.publishedAt == None && r.value.meetingDate == ExtractDate(FinnishThenIso, a.text)
    ensures (ContainsAny(Lower(a.href), LinkKeywords) || ContainsAny(Lower(a.text), LinkKeywords))
            && env.join(pageUrl, a.href) != pageUrl && !Contains(a.href, "#")
            && (MeetingFiles(env, env.join(pageUrl, a.href), a.href) != [] || ContainsAny(Lower(a.href), DocumentHints))
            ==> r.Some?
  {
    var hrefLower := Lower(a.href);
    if !(ContainsAny(hrefLower, LinkKeywords) || ContainsAny(Lower(a.text), LinkKeywords)) then None
    else
      var fullUrl := env.join(pageUrl, a.href);
      if fullUrl == pageUrl || Contains(a.href, "#") then None
      else
        var files := MeetingFiles(env, fullUrl, a.href);
        if files != [] || ContainsAny(hrefLower, DocumentHints) then
          Some(MakeRef(Municipality(cfg), Platform, ExtractBody(Bodies, a.text), ExtractDate(FinnishThenIso, a.text),
                       None, internalType, OrDefault(a.text, "Document"), fullUrl, files, "", env.digest))
        else None
  }

  function HtmlDocs(env: Env, cfg: Config, pageUrl: string, internalType: string, anchors: seq<Anchor>): (r: seq<DocumentRef>)
    ensures |r| <= |anchors|
  {
    if anchors == [] then []
    else HtmlDocs(env, cfg, pageUrl, internalType, anchors[..|anchors| - 1])
         + AsSeq(LinkDoc(env, cfg, pageUrl, internalType, anchors[|anchors| - 1]))
  }

  /** The body of `_parse_html`'s loop for one anchor. */
  method ParseLink(env: Env, cfg: Config, pageUrl: string, internalType: string, a: Anchor)
    returns (r: Option<DocumentRef>)
    ensures r == LinkDoc(env, cfg, pageUrl, internalType, a)
  {
    var hrefLower := Lower(a.href);
    if !(ContainsAny(hrefLower, LinkKeywords) || ContainsAny(Lower(a.text), LinkKeywords)) {
      return None;
    }
    var fullUrl := env.join(pageUrl, a.href);
    if fullUrl == pageUrl || Contains(a.href, "#") {
      return None;
    }
    var files: seq<string>;
    match env.fetch(fullUrl) {
      case Some(resp) =>
        files := CollectPdfLinks(env, fullUrl, env.html(resp.text).anchors);
      case None =>
        files := if Contains(hrefLower, ".pdf") then [fullUrl] else [];
    }
    if files != [] || ContainsAny(hrefLower, DocumentHints) {
      r := Some(MakeRef(Municipality(cfg), Platform, ExtractBody(Bodies, a.text),
                        ExtractDate(FinnishThenIso, a.text), None, internalType,
                        OrDefault(a.text, "Document"), fullUrl, files, "", env.digest));
    } else {
      r := None;
    }
  }

  /** The link loop of `_parse_html`. */
  method ParseLinks(env: Env, cfg: Config, pageUrl: string, internalType: string, anchors: seq<Anchor>)
    returns (docs: seq<DocumentRef>)
    ensures docs == HtmlDocs(env, cfg, pageUrl, internalType, anchors)
  {
    docs := [];
    var i := 0;
    while i < |anchors|
      invariant 0 <= i <= |anchors|
      invariant docs == HtmlDocs(env, cfg, pageUrl, internalType, anchors[..i])
    {
      var r := ParseLink(env, cfg, pageUrl, internalType, anchors[i]);
      assert anchors[..i + 1][..i] == anchors[..i];
      assert HtmlDocs(env, cfg, pageUrl, internalType, anchors[..i + 1]) == docs + AsSeq(r);
      docs := docs + AsSeq(r);
      i := i + 1;
    }
    assert anchors[..i] == anchors;
  }

  /** `_parse_html(html_content, base_url, doc_type)`. */
  method ParseHtml(env: Env, cfg: Config, htmlContent: string, pageUrl: string, docType: string)
    returns (docs: seq<DocumentRef>)
    ensures docs == HtmlDocs(env, cfg, pageUrl, InternalDocType(docType), env.html(htmlContent).anchors)
  {
    docs := ParseLinks(env, cfg, pageUrl, InternalDocType(docType), env.html(htmlContent).anchors);
  }

  // ----------------------------------------------------------- discover

  /** One configured `(doc_type, path)` entry: nothing for an empty path or
      a failed fetch, else the parsed listing. */
  function PathDocs(env: Env, src: Source, docType: string, path: string): (r: seq<DocumentRef>)
    ensures path == "" ==> r == []
    ensures env.fetch(env.join(src.baseUrl, path)).None? ==> r == []
  {
    if path == "" then []
    else
      var url := env.join(src.baseUrl, path);
      match env.fetch(url)
      case None => []
      case Some(resp) => HtmlDocs(env, src.config, url, InternalDocType(docType), env.html(resp.text).anchors)
  }

  function ConfiguredParts(env: Env, src: Source): (r: seq<seq<DocumentRef>>)
    ensures |r| == |src.config.paths|
    ensures forall k :: 0 <= k < |r| ==> r[k] == PathDocs(env, src, src.config.paths[k].0, src.config.paths[k].1)
  {
    seq(|src.config.paths|, k requires 0 <= k < |src.config.paths| =>
      PathDocs(env, src, src.config.paths[k].0, src.config.paths[k].1))
  }

  /** The `/meetingrss` feed's documents; none when it cannot be fetched. */
  function FeedDocs(env: Env, src: Source): (r: seq<DocumentRef>)
    ensures env.fetch(env.join(src.baseUrl, RssPath)).None? ==> r == []
  {
    match env.fetch(env.join(src.baseUrl, RssPath))
    case None => []
    case Some(resp) => RssDocs(env, src.config, env.feed(resp.text))
  }

  /** The default listings in the order they are tried. */
  function DefaultParts(env: Env, src: Source): (r: seq<seq<DocumentRef>>)
    ensures |r| == |DefaultPaths|
    ensures forall k :: 0 <= k < |r| ==> r[k] == PathDocs(env, src, DefaultPaths[k].1, DefaultPaths[k].0)
  {
    seq(|DefaultPaths|, k requires 0 <= k < |DefaultPaths| => PathDocs(env, src, DefaultPaths[k].1, DefaultPaths[k].0))
  }

  /** The generic discovery used when no paths are configured. */
  function FallbackDocs(env: Env, src: Source): seq<DocumentRef> {
    var feed := FeedDocs(env, src);
    if feed != [] then feed else FirstNonEmptyPart(DefaultParts(env, src))
  }

  /** What `discover` returns. */
  function Discovered(env: Env, src: Source): seq<DocumentRef> {
    if src.config.paths != [] then Flatten(ConfiguredParts(env, src)) else FallbackDocs(env, src)
  }

  /** One listing path that is not empty: fetched and parsed as HTML. */
  method FetchListing(env: Env, src: Source, docType: string, path: string) returns (part: seq<DocumentRef>)
    requires path != ""
    ensures part == PathDocs(env, src, docType, path)
  {
    part := [];
    var url := env.join(src.baseUrl, path);
    match env.fetch(url) {
      case Some(response) =>
        part := ParseHtml(env, src.config, response.text, url, docType);
      case None =>
    }
  }

  /** The configured-paths branch of `discover`; empty paths are skipped. */
  method DiscoverConfigured(env: Env, src: Source) returns (docs: seq<DocumentRef>)
    ensures docs == Flatten(ConfiguredParts(env, src))
  {
    var paths := src.config.paths;
    ghost var parts := ConfiguredParts(env, src);
    docs := [];
    var i := 0;
    while i < |paths|
      invariant 0 <= i <= |paths|
      invariant docs == Flatten(parts[..i])
    {
      var (docType, path) := paths[i];
      var part := [];
      if path != "" {
        part := FetchListing(env, src, docType, path);
      }
      FlattenStep(parts, i);
      docs := docs + part;
      i := i + 1;
    }
    assert parts[..i] == parts;
  }

  /** The `/meetingrss` feed. */
  method FetchFeed(env: Env, src: Source) returns (docs: seq<DocumentRef>)
    ensures docs == FeedDocs(env, src)
  {
    docs := [];
    match env.fetch(env.join(src.baseUrl, RssPath)) {
      case Some(response) =>
        docs := ParseRss(env, src.config, response.text);
      case None =>
    }
  }

  /** The fallback branch of `discover`: the feed, then the default
      listings until one yields documents. */
  method DiscoverFallback(env: Env, src: Source) returns (docs: seq<DocumentRef>)
    ensures docs == FallbackDocs(env, src)
  {
    docs := FetchFeed(env, src);
    if docs != [] {
      return;
    }
    ghost var parts := DefaultParts(env, src);
    var i := 0;
    while i < |DefaultPaths|
      invariant 0 <= i <= |DefaultPaths|
      invariant docs == []
      invariant forall j :: 0 <= j < i ==> parts[j] == []
    {
      var (path, docType) := DefaultPaths[i];
      docs := FetchListing(env, src, docType, path);
      if docs != [] {
        FirstNonEmptyAt(parts, i);
        return;
      }
      i := i + 1;
    }
  }

  /** `discover()`. */
  method Discover(env: Env, src: Source) returns (docs: seq<DocumentRef>)
    ensures docs == Discovered(env, src)
  {
    if src.config.paths != [] {
      docs := DiscoverConfigured(env, src);
    } else {
      docs := DiscoverFallback(env, src);
    }
  }

  /** With configured paths, every non-empty path is fetched and parsed
      under its own key; a path whose fetch fails adds nothing and does not
      stop the others. */
  lemma ConfiguredCoversEveryPath(env: Env, src: Source, d: DocumentRef)
    requires src.config.paths != []
    ensures d in Discovered(env, src) <==>
              exists k :: 0 <= k < |src.config.paths|
                && d in PathDocs(env, src, src.config.paths[k].0, src.config.paths[k].1)
  {
    var parts := ConfiguredParts(env, src);
    if d in Discovered(env, src) {
      var k :| 0 <= k < |parts| && d in parts[k];
      assert d in PathDocs(env, src, src.config.paths[k].0, src.config.paths[k].1);
    }
    if exists k :: 0 <= k < |src.config.paths| && d in PathDocs(env, src, src.config.paths[k].0, src.config.paths[k].1) {
      var k :| 0 <= k < |src.config.paths| && d in PathDocs(env, src, src.config.paths[k].0, src.config.paths[k].1);
      assert d in parts[k];
    }
  }

  /** Without paths the feed comes first; the listings are read only when
      it gives nothing, and the first listing with documents ends the
      search. */
  lemma FallbackOrder(env: Env, src: Source)
    requires src.config.paths == []
    ensures var feed := FeedDocs(env, src);
            var first := PathDocs(env, src, "meetings", "/fi-FI/Toimielimet");
            var second := PathDocs(env, src, "meetings", "/fi-FI");
            Discovered(env, src) == if feed != [] then feed else if first != [] then first else second
  {
    var parts := DefaultParts(env, src);
    assert parts[0] == PathDocs(env, src, "meetings", "/fi-FI/Toimielimet");
    assert parts[1] == PathDocs(env, src, "meetings", "/fi-FI");
    if parts[0] != [] {
      FirstNonEmptyAt(parts, 0);
    } else if parts[1] != [] {
      FirstNonEmptyAt(parts, 1);
    }
  }

  /** The listing keys map to the internal document types; an unknown key
      gives "minutes". */
  lemma DocTypeExamples()
    ensures InternalDocType("meetings") == "minutes" && InternalDocType("zoning") == "zoning"
    ensures InternalDocType("minutes") == "minutes"
  {
  }

  /** The specific council and board names come before the generic ones. */
  lemma SpecificBodiesFirst(text: string)
    ensures Contains(Lower(text), "kaupunginvaltuusto") ==> ExtractBody(Bodies, text) == "Kaupunginvaltuusto"
    ensures (Contains(Lower(text), "kunnanvaltuusto") && !Contains(Lower(text), "kaupunginvaltuusto"))
              ==> ExtractBody(Bodies, text) == "Kunnanvaltuusto"
  {
    if Contains(Lower(text), "kunnanvaltuusto") {
      KeyInTextFound(Bodies, text, 1);
    }
    if Contains(Lower(text), "kaupunginvaltuusto") {
      KeyInTextFound(Bodies, text, 0);
    }
  }
}
