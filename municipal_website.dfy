/** `MunicipalWebsiteConnector`: every PDF link on the configured pages
    becomes a document that is its own single file. */
module MunicipalWebsite {
  import opened Wrappers
  import opened Text
  import opened Calendar
  import opened DateExtract
  import opened Connector

  const Platform := "municipal_website"

  /** `_extract_body`'s table, in dict order. */
  const Bodies: seq<(string, string)> := [
    ("valtuusto", "Kunnanvaltuusto"),
    ("hallitus", "Kunnanhallitus"),
    ("ympäristö", "Ympäristölautakunta"),
    ("tekninen", "Tekninen lautakunta"),
    ("rakennus", "Rakennuslautakunta"),
    ("hyvinvointi", "Hyvinvointilautakunta"),
    ("sivistys", "Sivistyslautakunta"),
    ("tarkastus", "Tarkastuslautakunta"),
    ("keskusvaali", "Keskusvaalilautakunta"),
    ("lupalautakunta", "Lupalautakunta"),
    ("elinvoima", "Elinvoimalautakunta")
  ]

  const DocTypes: seq<(string, string)> := [
    ("meetings", "minutes"),
    ("agendas", "agenda"),
    ("officer_decisions", "decision"),
    ("announcements", "announcement")
  ]

  /** The four document types a document can get. */
  predicate IsInternalDocType(t: string) {
    t in {"minutes", "agenda", "decision", "announcement"}
  }

  /** `_determine_doc_type(path_type, text)`: a known path key decides;
      otherwise keywords of the lower-cased text, in order. */
  function DetermineDocType(pathType: string, text: string): (r: string)
    ensures IsInternalDocType(r)
    ensures pathType == "meetings" ==> r == "minutes"
    ensures pathType == "agendas" ==> r == "agenda"
    ensures pathType == "officer_decisions" ==> r == "decision"
    ensures pathType == "announcements" ==> r == "announcement"
  {
    var t := Lower(text);
    if pathType in {"meetings", "agendas", "officer_decisions", "announcements"} then LookupOr(DocTypes, pathType, "minutes")
    else if Contains(t, "esityslista") then "agenda"
    else if Contains(t, "pöytäkirja") then "minutes"
    else if Contains(t, "päätös") || Contains(t, "viranhaltija") then "decision"
    else if Contains(t, "kuulutus") then "announcement"
    else "minutes"
  }

  /** For any other path key the text decides, and a text with none of the
      keywords is minutes. */
  lemma TextDecidesUnknownKey(pathType: string, text: string)
    requires pathType !in {"meetings", "agendas", "officer_decisions", "announcements"}
    ensures Contains(Lower(text), "esityslista") ==> DetermineDocType(pathType, text) == "agenda"
    ensures !Contains(Lower(text), "esityslista") && Contains(Lower(text), "pöytäkirja") ==>
              DetermineDocType(pathType, text) == "minutes"
    ensures DetermineDocType(pathType, text) == "announcement" <==>
              !Contains(Lower(text), "esityslista") && !Contains(Lower(text), "pöytäkirja")
              && !Contains(Lower(text), "päätös") && !Contains(Lower(text), "viranhaltija")
              && Contains(Lower(text), "kuulutus")
    ensures DetermineDocType(pathType, text) == "decision" <==>
              !Contains(Lower(text), "esityslista") && !Contains(Lower(text), "pöytäkirja")
              && (Contains(Lower(text), "päätös") || Contains(Lower(text), "viranhaltija"))
  {
  }

  /** `_extract_date` as written here: the D.M.YYYY search, then the ISO
      search, each kept only if it is a valid date. */
  function WebsiteDate(text: string): (r: Option<DateTime>)
    ensures r.Some? ==> ValidDate(r.value.year, r.value.month, r.value.day) && IsMidnight(r.value)
  {
    var finnish := Search(text, DayDotMonthDotYear, 0);
    var iso := Search(text, YearDashMonthDashDay, 0);
    if finnish.Some? && GroupsToDate(finnish.value.groups).Some? then GroupsToDate(finnish.value.groups)
    else if iso.Some? then GroupsToDate(iso.value.groups)
    else None
  }

  /** It is the shared pattern list's extraction, Finnish then ISO. */
  lemma WebsiteDateIsFinnishThenIso(text: string)
    ensures WebsiteDate(text) == ExtractDate(FinnishThenIso, text)
  {
    var finnish := Search(text, DayDotMonthDotYear, 0);
    if !(finnish.Some? && GroupsToDate(finnish.value.groups).Some?) {
      FinnishFallsThrough(text);
    }
  }

  /** `re.search(pdf_pattern, href, re.IGNORECASE)` with the default
      pattern `\.pdf` when none is configured. */
  predicate IsPdfLink(env: Env, cfg: Config, href: string) {
    match cfg.pdfPattern
    case None => Contains(Lower(href), ".pdf")
    case Some(pattern) => env.search(pattern, href)
  }

  /** One anchor of `_parse_page`: the context is the nearest block
      ancestor's text, else the link text. */
  function LinkDoc(env: Env, cfg: Config, pageUrl: string, docType: string, a: Anchor): (r: Option<DocumentRef>)
    ensures r.Some? <==> IsPdfLink(env, cfg, a.href)
    ensures r.Some? ==> r.value.sourceUrl == env.join(pageUrl, a.href) && r.value.fileUrls == [r.value.sourceUrl]
    ensures r.Some? ==> var context := a.context.GetOr(a.text);
                        r.value.title == OrDefault(a.text, Prefix(context, 100))
                        && r.value.body == ExtractBody(Bodies, context)
                        && r.value.meetingDate == WebsiteDate(context)
                        && r.value.docType == DetermineDocType(docType, context)
                        && r.value.publishedAt == None
  {
    if !IsPdfLink(env, cfg, a.href) then None
    else
      var fullUrl := env.join(pageUrl, a.href);
      var context := a.context.GetOr(a.text);
      Some(MakeRef(Municipality(cfg), Platform, ExtractBody(Bodies, context), WebsiteDate(context), None,
                   DetermineDocType(docType, context), OrDefault(a.text, Prefix(context, 100)), fullUrl, [fullUrl],
                   "", env.digest))
  }

  function PageDocs(env: Env, cfg: Config, pageUrl: string, docType: string, anchors: seq<Anchor>): (r: seq<DocumentRef>)
    ensures |r| <= |anchors|
  {
    if anchors == [] then []
    else PageDocs(env, cfg, pageUrl, docType, anchors[..|anchors| - 1])
         + AsSeq(LinkDoc(env, cfg, pageUrl, docType, anchors[|anchors| - 1]))
  }

  /** Every document is a matching link, in link order; non-matching
      links leave no trace. */
  lemma {:induction false} PageDocsFrom(env: Env, cfg: Config, pageUrl: string, docType: string,
                                        anchors: seq<Anchor>, d: DocumentRef)
    requires d in PageDocs(env, cfg, pageUrl, docType, anchors)
    ensures exists k :: 0 <= k < |anchors| && IsPdfLink(env, cfg, anchors[k].href)
              && LinkDoc(env, cfg, pageUrl, docType, anchors[k]) == Some(d)
    decreases |anchors|
  {
    var n := |anchors| - 1;
    if d !in AsSeq(LinkDoc(env, cfg, pageUrl, docType, anchors[n])) {
      PageDocsFrom(env, cfg, pageUrl, docType, anchors[..n], d);
      var k :| 0 <= k < n && IsPdfLink(env, cfg, anchors[..n][k].href)
               && LinkDoc(env, cfg, pageUrl, docType, anchors[..n][k]) == Some(d);
      assert anchors[..n][k] == anchors[k];
    }
  }

  /** When every link matches, each one gives a document. */
  lemma {:induction false} AllPdfLinksKept(env: Env, cfg: Config, pageUrl: string, docType: string, anchors: seq<Anchor>)
    requires forall k :: 0 <= k < |anchors| ==> IsPdfLink(env, cfg, anchors[k].href)
    ensures |PageDocs(env, cfg, pageUrl, docType, anchors)| == |anchors|
    decreases |anchors|
  {
    if anchors != [] {
      var n := |anchors| - 1;
      assert forall k :: 0 <= k < n ==> anchors[..n][k] == anchors[k];
      AllPdfLinksKept(env, cfg, pageUrl, docType, anchors[..n]);
      assert IsPdfLink(env, cfg, anchors[n].href);
    }
  }

  /** What `_parse_page(html, base_url, doc_type)` returns. */
  function HtmlDocs(env: Env, cfg: Config, htmlContent: string, pageUrl: string, docType: string): seq<DocumentRef> {
    PageDocs(env, cfg, pageUrl, docType, env.html(htmlContent).anchors)
  }

  method ParseLink(env: Env, cfg: Config, pageUrl: string, docType: string, a: Anchor) returns (r: Option<DocumentRef>)
    ensures r == LinkDoc(env, cfg, pageUrl, docType, a)
  {
    var matched := false;
    match cfg.pdfPattern {
      case None => matched := Contains(Lower(a.href), ".pdf");
      case Some(pattern) => matched := env.search(pattern, a.href);
    }
    if !matched {
      return None;
    }
    var fullUrl := env.join(pageUrl, a.href);
    var context := if a.context.Some? then a.context.value else a.text;
    r := Some(MakeRef(Municipality(cfg), Platform, ExtractBody(Bodies, context), WebsiteDate(context), None,
                      DetermineDocType(docType, context), OrDefault(a.text, Prefix(context, 100)), fullUrl, [fullUrl],
                      "", env.digest));
  }

  /** The link loop of `_parse_page`. */
  method ParseLinks(env: Env, cfg: Config, baseUrl: string, docType: string, anchors: seq<Anchor>)
    returns (docs: seq<DocumentRef>)
    ensures docs == PageDocs(env, cfg, baseUrl, docType, anchors)
  {
    docs := [];
    var i := 0;
    while i < |anchors|
      invariant 0 <= i <= |anchors|
      invariant docs == PageDocs(env, cfg, baseUrl, docType, anchors[..i])
    {
      var r := ParseLink(env, cfg, baseUrl, docType, anchors[i]);
      docs := docs + AsSeq(r);
      assert anchors[..i + 1][..i] == anchors[..i];
      i := i + 1;
    }
    assert anchors[..i] == anchors;
  }

  /** `_parse_page(html, base_url, doc_type)`. */
  method ParsePage(env: Env, cfg: Config, htmlContent: string, baseUrl: string, docType: string)
    returns (docs: seq<DocumentRef>)
    ensures docs == HtmlDocs(env, cfg, htmlContent, baseUrl, docType)
  {
    docs := ParseLinks(env, cfg, baseUrl, docType, env.html(htmlContent).anchors);
  }

  // ----------------------------------------------------------- discover

  /** The `(doc_type, path)` pairs `discover` walks: the configured paths,
      or else the dict `{"default": path for path in listing_paths}`, in
      which each listing path overwrites the one before. */
  function EffectivePaths(cfg: Config): (r: seq<(string, string)>)
    ensures cfg.paths != [] ==> r == cfg.paths
    ensures cfg.paths == [] ==> |r| <= 1
  {
    if cfg.paths != [] then cfg.paths
    else
      var listing := cfg.listingPaths.GetOr(["/"]);
      if listing == [] then [] else [("default", listing[|listing| - 1])]
  }

  /** Without `paths` only the LAST listing path is fetched, under the
      "default" key; with no `listing_paths` that is the site root. */
  lemma OnlyLastListingPath(cfg: Config)
    requires cfg.paths == []
    ensures cfg.listingPaths.None? ==> EffectivePaths(cfg) == [("default", "/")]
    ensures cfg.listingPaths.Some? && cfg.listingPaths.value != [] ==>
              EffectivePaths(cfg) == [("default", cfg.listingPaths.value[|cfg.listingPaths.value| - 1])]
    ensures cfg.listingPaths == Some([]) ==> EffectivePaths(cfg) == []
  {
  }

  /** One `(doc_type, path)` entry; an empty path is skipped and a fetch
      that raises contributes nothing. */
  function PathDocs(env: Env, src: Source, docType: string, path: string): (r: seq<DocumentRef>)
    ensures path == "" ==> r == []
    ensures env.fetch(env.join(src.baseUrl, path)).None? ==> r == []
  {
    if path == "" then []
    else
      var url := env.join(src.baseUrl, path);
      match env.fetch(url)
      case None => []
      case Some(resp) => HtmlDocs(env, src.config, resp.text, url, docType)
  }

  function Parts(env: Env, src: Source): (r: seq<seq<DocumentRef>>)
    ensures |r| == |EffectivePaths(src.config)|
    ensures forall k :: 0 <= k < |r| ==>
              r[k] == PathDocs(env, src, EffectivePaths(src.config)[k].0, EffectivePaths(src.config)[k].1)
  {
    var paths := EffectivePaths(src.config);
    seq(|paths|, k requires 0 <= k < |paths| => PathDocs(env, src, paths[k].0, paths[k].1))
  }

  /** What `discover` returns. */
  function Discovered(env: Env, src: Source): seq<DocumentRef> {
    Flatten(Parts(env, src))
  }

  /** One listing path that is not empty: fetched and parsed. */
  method FetchListing(env: Env, src: Source, docType: string, path: string) returns (part: seq<DocumentRef>)
    requires path != ""
    ensures part == PathDocs(env, src, docType, path)
  {
    part := [];
    var listingUrl := env.join(src.baseUrl, path);
    match env.fetch(listingUrl) {
      case Some(response) =>
        part := ParsePage(env, src.config, response.text, listingUrl, docType);
      case None =>
    }
  }

  /** `discover()`. */
  method Discover(env: Env, src: Source) returns (docs: seq<DocumentRef>)
    ensures docs == Discovered(env, src)
  {
    var paths := src.config.paths;
    if paths == [] {
      var listing := if src.config.listingPaths.Some? then src.config.listingPaths.value else ["/"];
      paths := [];
      var j := 0;
      while j < |listing|
        invariant 0 <= j <= |listing|
        invariant paths == if j == 0 then [] else [("default", listing[j - 1])]
      {
        paths := [("default", listing[j])];
        j := j + 1;
      }
    }
    assert paths == EffectivePaths(src.config);
    ghost var parts := Parts(env, src);
    docs := [];
    var i := 0;
    while i < |paths|
      invariant 0 <= i <= |paths|
      invariant docs == Flatten(parts[..i])
    {
      var (docType, path) := paths[i];
      var part := [];
      if path != "" {
        part := FetchListing(env, src, docType, path);
      }
      FlattenStep(parts, i);
      docs := docs + part;
      i := i + 1;
    }
    assert parts[..i] == parts;
  }

  /** Every discovered document is a PDF link of one of the walked pages,
      and is its own single file. */
  lemma DiscoveredArePdfLinks(env: Env, src: Source, d: DocumentRef)
    requires d in Discovered(env, src)
    ensures d.fileUrls == [d.sourceUrl]
    ensures exists k :: 0 <= k < |EffectivePaths(src.config)|
              && d in PathDocs(env, src, EffectivePaths(src.config)[k].0, EffectivePaths(src.config)[k].1)
  {
    var parts := Parts(env, src);
    var k :| 0 <= k < |parts| && d in parts[k];
    var (docType, path) := EffectivePaths(src.config)[k];
    var url := env.join(src.baseUrl, path);
    var resp := env.fetch(url).value;
    PageDocsFrom(env, src.config, url, docType, env.html(resp.text).anchors, d);
  }

  /** "valtuusto" and "hallitus" name the municipal council and board. */
  lemma CouncilAndBoard(text: string)
    ensures Contains(Lower(text), "valtuusto") ==> ExtractBody(Bodies, text) == "Kunnanvaltuusto"
    ensures !Contains(Lower(text), "valtuusto") && Contains(Lower(text), "hallitus") ==>
              ExtractBody(Bodies, text) == "Kunnanhallitus"
  {
    if Contains(Lower(text), "valtuusto") {
      KeyInTextFound(Bodies, text, 0);
    } else if Contains(Lower(text), "hallitus") {
      KeyInTextFound(Bodies, text, 1);
    }
  }
}
