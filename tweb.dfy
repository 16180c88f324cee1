/** `TWebConnector`: documents from the links in table rows, then from
    stand-alone `fileshow` links not yet collected. */
module TWeb {
  import opened Wrappers
  import opened Text
  import opened Calendar
  import opened DateExtract
  import opened Connector

  const Platform := "tweb"

  /** `_extract_body`'s table, in dict order. */
  const Bodies: seq<(string, string)> := [
    ("valtuusto", "Valtuusto"),
    ("hallitus", "Hallitus"),
    ("ympäristö", "Ympäristölautakunta"),
    ("tekninen", "Tekninen lautakunta"),
    ("kaavoitus", "Kaavoituslautakunta"),
    ("rakennus", "Rakennuslautakunta"),
    ("lupa", "Lupalautakunta"),
    ("hyvinvointi", "Hyvinvointilautakunta"),
    ("sivistys", "Sivistyslautakunta"),
    ("tarkastus", "Tarkastuslautakunta"),
    ("aluehallitus", "Aluehallitus"),
    ("aluevaltuusto", "Aluevaltuusto")
  ]

  const DocTypes: seq<(string, string)> := [
    ("meetings", "minutes"),
    ("agendas", "agenda"),
    ("officer_decisions", "decision"),
    ("announcements", "announcement")
  ]

  const RowLinkPatterns: seq<string> := ["fileshow", "docid", "kokous", "meeting", "htmtxt"]

  /** The fallback listings, tried in this order. */
  const ListingPaths: seq<(string, string)> := [
    ("/ktwebscr/pk_tek_tweb.htm", "meetings"),
    ("/ktwebbin/dbisa.dll/ktwebscr/pk_tek_tweb.htm", "meetings"),
    ("/ktwebscr/epj_tek_tweb.htm", "agendas"),
    ("/ktwebbin/dbisa.dll/ktwebscr/epj_tek_tweb.htm", "agendas"),
    ("/tweb/", "meetings"),
    ("/ktwebbin/", "meetings"),
    ("/pk_tek.htm", "meetings")
  ]

  function InternalDocType(docType: string): (r: string)
    ensures docType == "meetings" ==> r == "minutes"
    ensures docType == "agendas" ==> r == "agenda"
    ensures docType == "officer_decisions" ==> r == "decision"
    ensures docType == "announcements" ==> r == "announcement"
    ensures docType !in {"meetings", "agendas", "officer_decisions", "announcements"} ==> r == "minutes"
  {
    LookupOr(DocTypes, docType, "minutes")
  }

  /** An href that names a file itself rather than a page listing files. */
  predicate IsFileHref(href: string) {
    Contains(Lower(href), "fileshow") || Contains(Lower(href), ".pdf")
  }

  // ----------------------------------------------------- linked pages

  function FileLinks(env: Env, pageUrl: string, anchors: seq<Anchor>): (r: seq<string>)
    ensures |r| <= |anchors|
  {
    if anchors == [] then []
    else
      var last := anchors[|anchors| - 1];
      FileLinks(env, pageUrl, anchors[..|anchors| - 1]) + (if IsFileHref(last.href) then [env.join(pageUrl, last.href)] else [])
  }

  /** What `_get_pdf_links(page_url)` returns: nothing when the page cannot
      be fetched. */
  function PdfLinksOf(env: Env, pageUrl: string): (r: seq<string>)
    ensures env.fetch(pageUrl).None? ==> r == []
  {
    match env.fetch(pageUrl)
    case None => []
    case Some(resp) => FileLinks(env, pageUrl, env.html(resp.text).anchors)
  }

  method GetPdfLinks(env: Env, pageUrl: string) returns (fileUrls: seq<string>)
    ensures fileUrls == PdfLinksOf(env, pageUrl)
  {
    fileUrls := [];
    match env.fetch(pageUrl) {
      case None =>
      case Some(resp) =>
        var anchors := env.html(resp.text).anchors;
        var i := 0;
        while i < |anchors|
          invariant 0 <= i <= |anchors|
          invariant fileUrls == FileLinks(env, pageUrl, anchors[..i])
        {
          if IsFileHref(anchors[i].href) {
            fileUrls := fileUrls + [env.join(pageUrl, anchors[i].href)];
          }
          assert anchors[..i + 1][..i] == anchors[..i];
          i := i + 1;
        }
        assert anchors[..i] == anchors;
    }
  }

  // ------------------------------------------------------- table pass

  /** One link of a table row: body, date and fall-back title come from the
      whole row's text. */
  function RowLinkDoc(env: Env, cfg: Config, pageUrl: string, internalType: string, row: Row, a: Anchor)
    : (r: Option<DocumentRef>)
    ensures r.Some? <==> ContainsAny(Lower(a.href), RowLinkPatterns)
    ensures r.Some? ==> r.value.sourceUrl == env.join(pageUrl, a.href) && r.value.docType == internalType
    ensures r.Some? && IsFileHref(a.href) ==> r.value.fileUrls == [r.value.sourceUrl]
    ensures r.Some? && !IsFileHref(a.href) ==> r.value.fileUrls == PdfLinksOf(env, r.value.sourceUrl)
    ensures r.Some? ==> r.value.body == ExtractBody(Bodies, row.text)
                        && r.value.meetingDate == ExtractDate(FinnishIsoSlash, row.text)
                        && r.value.title == OrDefault(a.text, Prefix(row.text, 100)) && r.value.publishedAt == None
  {
    if !ContainsAny(Lower(a.href), RowLinkPatterns) then None
    else
      var fullUrl := env.join(pageUrl, a.href);
      var fileUrls := if IsFileHref(a.href) then [fullUrl] else PdfLinksOf(env, fullUrl);
      Some(MakeRef(Municipality(cfg), Platform, ExtractBody(Bodies, row.text), ExtractDate(FinnishIsoSlash, row.text),
                   None, internalType, OrDefault(a.text, Prefix(row.text, 100)), fullUrl, fileUrls, "", env.digest))
  }

  function RowLinkDocs(env: Env, cfg: Config, pageUrl: string, internalType: string, row: Row, anchors: seq<Anchor>)
    : (r: seq<DocumentRef>)
    ensures |r| <= |anchors|
  {
    if anchors == [] then []
    else RowLinkDocs(env, cfg, pageUrl, internalType, row, anchors[..|anchors| - 1])
         + AsSeq(RowLinkDoc(env, cfg, pageUrl, internalType, row, anchors[|anchors| - 1]))
  }

  /** A row with fewer than two cells yields nothing. */
  function RowDocs(env: Env, cfg: Config, pageUrl: string, internalType: string, row: Row): (r: seq<DocumentRef>)
    ensures row.cells < 2 ==> r == []
  {
    if row.cells < 2 then [] else RowLinkDocs(env, cfg, pageUrl, internalType, row, row.anchors)
  }

  function TableDocs(env: Env, cfg: Config, pageUrl: string, internalType: string, rows: seq<Row>): seq<DocumentRef> {
    if rows == [] then []
    else TableDocs(env, cfg, pageUrl, internalType, rows[..|rows| - 1])
         + RowDocs(env, cfg, pageUrl, internalType, rows[|rows| - 1])
  }

  /** Every document of a row comes from one of its qualifying links. */
  lemma {:induction false} RowLinkDocsFrom(env: Env, cfg: Config, pageUrl: string, internalType: string, row: Row,
                                           anchors: seq<Anchor>, d: DocumentRef)
    requires d in RowLinkDocs(env, cfg, pageUrl, internalType, row, anchors)
    ensures exists m :: 0 <= m < |anchors| && RowLinkDoc(env, cfg, pageUrl, internalType, row, anchors[m]) == Some(d)
    decreases |anchors|
  {
    var n := |anchors| - 1;
    if d !in AsSeq(RowLinkDoc(env, cfg, pageUrl, internalType, row, anchors[n])) {
      RowLinkDocsFrom(env, cfg, pageUrl, internalType, row, anchors[..n], d);
      var m :| 0 <= m < n && RowLinkDoc(env, cfg, pageUrl, internalType, row, anchors[..n][m]) == Some(d);
      assert anchors[..n][m] == anchors[m];
    }
  }

  /** Every table document comes from a link of a row with at least two
      cells. */
  lemma {:induction false} TableDocsFrom(env: Env, cfg: Config, pageUrl: string, internalType: string,
                                         rows: seq<Row>, d: DocumentRef)
    requires d in TableDocs(env, cfg, pageUrl, internalType, rows)
    ensures exists k, m :: 0 <= k < |rows| && rows[k].cells >= 2 && 0 <= m < |rows[k].anchors|
              && RowLinkDoc(env, cfg, pageUrl, internalType, rows[k], rows[k].anchors[m]) == Some(d)
    decreases |rows|
  {
    var n := |rows| - 1;
    if d in RowDocs(env, cfg, pageUrl, internalType, rows[n]) {
      RowLinkDocsFrom(env, cfg, pageUrl, internalType, rows[n], rows[n].anchors, d);
    } else {
      TableDocsFrom(env, cfg, pageUrl, internalType, rows[..n], d);
      var k, m :| 0 <= k < n && rows[..n][k].cells >= 2 && 0 <= m < |rows[..n][k].anchors|
                  && RowLinkDoc(env, cfg, pageUrl, internalType, rows[..n][k], rows[..n][k].anchors[m]) == Some(d);
      assert rows[..n][k] == rows[k];
    }
  }

  // -------------------------------------------------- stand-alone pass

  /** A link outside the table logic: only `fileshow` links carrying a
      `docid`, each its own single file. */
  function StandaloneDoc(env: Env, cfg: Config, pageUrl: string, internalType: string, a: Anchor)
    : (r: Option<DocumentRef>)
    ensures r.Some? <==> Contains(Lower(a.href), "fileshow") && Contains(Lower(a.href), "docid")
    ensures r.Some? ==> r.value.sourceUrl == env.join(pageUrl, a.href) && r.value.fileUrls == [r.value.sourceUrl]
    ensures r.Some? ==> r.value.title == OrDefault(a.text, "Document") && r.value.body == ExtractBody(Bodies, a.text)
                        && r.value.meetingDate == ExtractDate(FinnishIsoSlash, a.text) && r.value.docType == internalType
  {
    if Contains(Lower(a.href), "fileshow") && Contains(Lower(a.href), "docid") then
      var fullUrl := env.join(pageUrl, a.href);
      Some(MakeRef(Municipality(cfg), Platform, ExtractBody(Bodies, a.text), ExtractDate(FinnishIsoSlash, a.text),
                   None, internalType, OrDefault(a.text, "Document"), fullUrl, [fullUrl], "", env.digest))
    else None
  }

  /** `any(d.source_url == url for d in documents)`. */
  predicate HasUrl(docs: seq<DocumentRef>, url: string) {
    exists i :: 0 <= i < |docs| && docs[i].sourceUrl == url
  }

  /** The documents collected so far, then the stand-alone pass over
      `anchors`, each step checking against the list as it has grown. */
  function Standalone(env: Env, cfg: Config, pageUrl: string, internalType: string,
                      docs0: seq<DocumentRef>, anchors: seq<Anchor>): (r: seq<DocumentRef>)
    ensures |docs0| <= |r| && r[..|docs0|] == docs0
  {
    if anchors == [] then docs0
    else
      var acc := Standalone(env, cfg, pageUrl, internalType, docs0, anchors[..|anchors| - 1]);
      var d := StandaloneDoc(env, cfg, pageUrl, internalType, anchors[|anchors| - 1]);
      if d.Some? && !HasUrl(acc, d.value.sourceUrl) then acc + [d.value] else acc
  }

  /** No document from index `from` on repeats the URL of one before it. */
  predicate NewUrlsFrom(docs: seq<DocumentRef>, from: nat) {
    forall i, j :: 0 <= i < j < |docs| && from <= j ==> docs[i].sourceUrl != docs[j].sourceUrl
  }

  /** Nothing the stand-alone pass adds repeats a URL that precedes it:
      neither a table document's nor another stand-alone document's. */
  lemma {:induction false} StandaloneAddsNewUrls(env: Env, cfg: Config, pageUrl: string, internalType: string,
                                                 docs0: seq<DocumentRef>, anchors: seq<Anchor>)
    ensures NewUrlsFrom(Standalone(env, cfg, pageUrl, internalType, docs0, anchors), |docs0|)
    decreases |anchors|
  {
    if anchors != [] {
      var n := |anchors| - 1;
      StandaloneAddsNewUrls(env, cfg, pageUrl, internalType, docs0, anchors[..n]);
      var acc := Standalone(env, cfg, pageUrl, internalType, docs0, anchors[..n]);
      assert NewUrlsFrom(acc, |docs0|);
      var d := StandaloneDoc(env, cfg, pageUrl, internalType, anchors[n]);
      if d.Some? && !HasUrl(acc, d.value.sourceUrl) {
        AppendNewUrl(acc, |docs0|, d.value);
      }
    }
  }

  lemma AppendNewUrl(acc: seq<DocumentRef>, from: nat, d: DocumentRef)
    requires NewUrlsFrom(acc, from) && !HasUrl(acc, d.sourceUrl)
    ensures NewUrlsFrom(acc + [d], from)
  {
    var r := acc + [d];
    forall i, j | 0 <= i < j < |r| && from <= j
      ensures r[i].sourceUrl != r[j].sourceUrl
    {
      assert r[i] == acc[i];
      if j < |acc| {
        assert r[j] == acc[j];
      } else {
        assert r[j] == d;
      }
    }
  }

  /** Each added document comes from a qualifying stand-alone link. */
  lemma {:induction false} StandaloneFrom(env: Env, cfg: Config, pageUrl: string, internalType: string,
                                          docs0: seq<DocumentRef>, anchors: seq<Anchor>, j: nat)
    requires |docs0| <= j < |Standalone(env, cfg, pageUrl, internalType, docs0, anchors)|
    ensures exists k :: 0 <= k < |anchors| &&
              StandaloneDoc(env, cfg, pageUrl, internalType, anchors[k])
                == Some(Standalone(env, cfg, pageUrl, internalType, docs0, anchors)[j])
    decreases |anchors|
  {
    var n := |anchors| - 1;
    var acc := Standalone(env, cfg, pageUrl, internalType, docs0, anchors[..n]);
    var d := StandaloneDoc(env, cfg, pageUrl, internalType, anchors[n]);
    if j < |acc| {
      var r := Standalone(env, cfg, pageUrl, internalType, docs0, anchors);
      assert r[j] == acc[j];
      StandaloneFrom(env, cfg, pageUrl, internalType, docs0, anchors[..n], j);
      var k :| 0 <= k < n && StandaloneDoc(env, cfg, pageUrl, internalType, anchors[..n][k]) == Some(acc[j]);
      assert anchors[..n][k] == anchors[k];
    }
  }

  /** A URL already collected stays collected. */
  lemma {:induction false} StandaloneKeepsUrl(env: Env, cfg: Config, pageUrl: string, internalType: string,
                                              docs0: seq<DocumentRef>, anchors: seq<Anchor>, url: string)
    requires HasUrl(docs0, url)
    ensures HasUrl(Standalone(env, cfg, pageUrl, internalType, docs0, anchors), url)
  {
    var r := Standalone(env, cfg, pageUrl, internalType, docs0, anchors);
    var i :| 0 <= i < |docs0| && docs0[i].sourceUrl == url;
    assert r[..|docs0|][i] == r[i];
  }

  /** The last step of the pass keeps every URL collected before it. */
  lemma StandaloneKeepsEarlier(env: Env, cfg: Config, pageUrl: string, internalType: string,
                               docs0: seq<DocumentRef>, anchors: seq<Anchor>, url: string)
    requires anchors != []
    requires HasUrl(Standalone(env, cfg, pageUrl, internalType, docs0, anchors[..|anchors| - 1]), url)
    ensures HasUrl(Standalone(env, cfg, pageUrl, internalType, docs0, anchors), url)
  {
    var acc := Standalone(env, cfg, pageUrl, internalType, docs0, anchors[..|anchors| - 1]);
    var r := Standalone(env, cfg, pageUrl, internalType, docs0, anchors);
    var i :| 0 <= i < |acc| && acc[i].sourceUrl == url;
    assert r[i] == acc[i];
  }

  /** The last step of the pass collects the URL of a qualifying last link. */
  lemma StandaloneAddsLast(env: Env, cfg: Config, pageUrl: string, internalType: string,
                           docs0: seq<DocumentRef>, anchors: seq<Anchor>, d: DocumentRef)
    requires anchors != [] && StandaloneDoc(env, cfg, pageUrl, internalType, anchors[|anchors| - 1]) == Some(d)
    ensures HasUrl(Standalone(env, cfg, pageUrl, internalType, docs0, anchors), d.sourceUrl)
  {
    var acc := Standalone(env, cfg, pageUrl, internalType, docs0, anchors[..|anchors| - 1]);
    if HasUrl(acc, d.sourceUrl) {
      StandaloneKeepsEarlier(env, cfg, pageUrl, internalType, docs0, anchors, d.sourceUrl);
    } else {
      assert Standalone(env, cfg, pageUrl, internalType, docs0, anchors) == acc + [d];
      assert (acc + [d])[|acc|] == d;
    }
  }

  /** A URL collected after the first `m` links stays collected to the end. */
  lemma {:induction false} StandaloneKeepsFrom(env: Env, cfg: Config, pageUrl: string, internalType: string,
                                               docs0: seq<DocumentRef>, anchors: seq<Anchor>, m: nat, url: string)
    requires m <= |anchors| && HasUrl(Standalone(env, cfg, pageUrl, internalType, docs0, anchors[..m]), url)
    ensures HasUrl(Standalone(env, cfg, pageUrl, internalType, docs0, anchors), url)
    decreases |anchors| - m
  {
    if m < |anchors| {
      assert anchors[..m + 1][..m] == anchors[..m];
      StandaloneKeepsEarlier(env, cfg, pageUrl, internalType, docs0, anchors[..m + 1], url);
      StandaloneKeepsFrom(env, cfg, pageUrl, internalType, docs0, anchors, m + 1, url);
    } else {
      assert anchors[..m] == anchors;
    }
  }

  /** Every qualifying stand-alone link ends up collected: it is added
      unless a document with its URL was collected before it. */
  lemma StandaloneCovers(env: Env, cfg: Config, pageUrl: string, internalType: string,
                         docs0: seq<DocumentRef>, anchors: seq<Anchor>, k: nat, d: DocumentRef)
    requires k < |anchors| && StandaloneDoc(env, cfg, pageUrl, internalType, anchors[k]) == Some(d)
    ensures HasUrl(Standalone(env, cfg, pageUrl, internalType, docs0, anchors), d.sourceUrl)
  {
    assert anchors[..k + 1][k] == anchors[k];
    StandaloneAddsLast(env, cfg, pageUrl, internalType, docs0, anchors[..k + 1], d);
    StandaloneKeepsFrom(env, cfg, pageUrl, internalType, docs0, anchors, k + 1, d.sourceUrl);
  }

  /** What `_parse_html` returns. */
  function HtmlDocs(env: Env, cfg: Config, htmlContent: string, pageUrl: string, docType: string): (r: seq<DocumentRef>)
    ensures var t := TableDocs(env, cfg, pageUrl, InternalDocType(docType), env.html(htmlContent).rows);
            |t| <= |r| && r[..|t|] == t
  {
    var page := env.html(htmlContent);
    var internalType := InternalDocType(docType);
    Standalone(env, cfg, pageUrl, internalType, TableDocs(env, cfg, pageUrl, internalType, page.rows), page.anchors)
  }

  /** `_parse_html` returns every table document, and a document for
      every URL of a qualifying stand-alone link on the page. */
  lemma HtmlDocsCover(env: Env, cfg: Config, htmlContent: string, pageUrl: string, docType: string, k: nat)
    requires k < |env.html(htmlContent).anchors|
    requires StandaloneDoc(env, cfg, pageUrl, InternalDocType(docType), env.html(htmlContent).anchors[k]).Some?
    ensures HasUrl(HtmlDocs(env, cfg, htmlContent, pageUrl, docType),
                   StandaloneDoc(env, cfg, pageUrl, InternalDocType(docType), env.html(htmlContent).anchors[k]).value.sourceUrl)
  {
    var page := env.html(htmlContent);
    var internalType := InternalDocType(docType);
    StandaloneCovers(env, cfg, pageUrl, internalType, TableDocs(env, cfg, pageUrl, internalType, page.rows),
                     page.anchors, k, StandaloneDoc(env, cfg, pageUrl, internalType, page.anchors[k]).value);
  }

  method ParseRowLink(env: Env, cfg: Config, pageUrl: string, internalType: string, row: Row, a: Anchor)
    returns (r: Option<DocumentRef>)
    ensures r == RowLinkDoc(env, cfg, pageUrl, internalType, row, a)
  {
    if !ContainsAny(Lower(a.href), RowLinkPatterns) {
      return None;
    }
    var fullUrl := env.join(pageUrl, a.href);
    var fileUrls := [];
    if IsFileHref(a.href) {
      fileUrls := [fullUrl];
    } else {
      fileUrls := GetPdfLinks(env, fullUrl);
    }
    r := Some(MakeRef(Municipality(cfg), Platform, ExtractBody(Bodies, row.text), ExtractDate(FinnishIsoSlash, row.text),
                      None, internalType, OrDefault(a.text, Prefix(row.text, 100)), fullUrl, fileUrls, "", env.digest));
  }

  /** The link loop for one row. */
  method ParseRow(env: Env, cfg: Config, pageUrl: string, internalType: string, row: Row)
    returns (docs: seq<DocumentRef>)
    ensures docs == RowDocs(env, cfg, pageUrl, internalType, row)
  {
    docs := [];
    if row.cells < 2 {
      return;
    }
    var anchors := row.anchors;
    var i := 0;
    while i < |anchors|
      invariant 0 <= i <= |anchors|
      invariant docs == RowLinkDocs(env, cfg, pageUrl, internalType, row, anchors[..i])
    {
      var r := ParseRowLink(env, cfg, pageUrl, internalType, row, anchors[i]);
      assert anchors[..i + 1][..i] == anchors[..i];
      assert RowLinkDocs(env, cfg, pageUrl, internalType, row, anchors[..i + 1]) == docs + AsSeq(r);
      docs := docs + AsSeq(r);
      i := i + 1;
    }
    assert anchors[..i] == anchors;
  }

  /** The loop over the rows of all tables. */
  method ParseTables(env: Env, cfg: Config, pageUrl: string, internalType: string, rows: seq<Row>)
    returns (docs: seq<DocumentRef>)
    ensures docs == TableDocs(env, cfg, pageUrl, internalType, rows)
  {
    docs := [];
    var i := 0;
    while i < |rows|
      invariant 0 <= i <= |rows|
      invariant docs == TableDocs(env, cfg, pageUrl, internalType, rows[..i])
    {
      var rowDocs := ParseRow(env, cfg, pageUrl, internalType, rows[i]);
      docs := docs + rowDocs;
      assert rows[..i + 1][..i] == rows[..i];
      i := i + 1;
    }
    assert rows[..i] == rows;
  }

  /** One link of the stand-alone loop. */
  method ParseStandaloneLink(env: Env, cfg: Config, pageUrl: string, internalType: string, a: Anchor)
    returns (r: Option<DocumentRef>)
    ensures r == StandaloneDoc(env, cfg, pageUrl, internalType, a)
  {
    r := None;
    if Contains(Lower(a.href), "fileshow") && Contains(Lower(a.href), "docid") {
      var fullUrl := env.join(pageUrl, a.href);
      r := Some(MakeRef(Municipality(cfg), Platform, ExtractBody(Bodies, a.text), ExtractDate(FinnishIsoSlash, a.text),
                        None, internalType, OrDefault(a.text, "Document"), fullUrl, [fullUrl], "", env.digest));
    }
  }

  /** The stand-alone loop, appending to `docs`. */
  method ParseStandalone(env: Env, cfg: Config, pageUrl: string, internalType: string,
                         docs0: seq<DocumentRef>, anchors: seq<Anchor>)
    returns (docs: seq<DocumentRef>)
    ensures docs == Standalone(env, cfg, pageUrl, internalType, docs0, anchors)
  {
    docs := docs0;
    var i := 0;
    while i < |anchors|
      invariant 0 <= i <= |anchors|
      invariant docs == Standalone(env, cfg, pageUrl, internalType, docs0, anchors[..i])
    {
      var d := ParseStandaloneLink(env, cfg, pageUrl, internalType, anchors[i]);
      if d.Some? && !HasUrl(docs, d.value.sourceUrl) {
        docs := docs + [d.value];
      }
      assert anchors[..i + 1][..i] == anchors[..i];
      i := i + 1;
    }
    assert anchors[..i] == anchors;
  }

  /** `_parse_html(html_content, base_url, doc_type)`. */
  method ParseHtml(env: Env, cfg: Config, htmlContent: string, baseUrl: string, docType: string)
    returns (docs: seq<DocumentRef>)
    ensures docs == HtmlDocs(env, cfg, htmlContent, baseUrl, docType)
  {
    var soup := env.html(htmlContent);
    var internalType := InternalDocType(docType);
    var tableDocs := ParseTables(env, cfg, baseUrl, internalType, soup.rows);
    docs := ParseStandalone(env, cfg, baseUrl, internalType, tableDocs, soup.anchors);
  }

  // ----------------------------------------------------------- discover

  /** One listing page: parsed whatever its content type. */
  function PageDocs(env: Env, src: Source, docType: string, path: string): (r: seq<DocumentRef>)
    ensures env.fetch(env.join(src.baseUrl, path)).None? ==> r == []
  {
    var url := env.join(src.baseUrl, path);
    match env.fetch(url)
    case None => []
    case Some(resp) => HtmlDocs(env, src.config, resp.text, url, docType)
  }

  /** One configured `(doc_type, path)` entry; an empty path is skipped. */
  function PathDocs(env: Env, src: Source, docType: string, path: string): (r: seq<DocumentRef>)
    ensures path == "" ==> r == []
    ensures path != "" ==> r == PageDocs(env, src, docType, path)
  {
    if path == "" then [] else PageDocs(env, src, docType, path)
  }

  function ConfiguredParts(env: Env, src: Source): (r: seq<seq<DocumentRef>>)
    ensures |r| == |src.config.paths|
    ensures forall k :: 0 <= k < |r| ==> r[k] == PathDocs(env, src, src.config.paths[k].0, src.config.paths[k].1)
  {
    seq(|src.config.paths|, k requires 0 <= k < |src.config.paths| =>
      PathDocs(env, src, src.config.paths[k].0, src.config.paths[k].1))
  }

  function ListingParts(env: Env, src: Source): (r: seq<seq<DocumentRef>>)
    ensures |r| == |ListingPaths|
    ensures forall k :: 0 <= k < |r| ==> r[k] == PageDocs(env, src, ListingPaths[k].1, ListingPaths[k].0)
  {
    seq(|ListingPaths|, k requires 0 <= k < |ListingPaths| => PageDocs(env, src, ListingPaths[k].1, ListingPaths[k].0))
  }

  /** What `discover` returns. */
  function Discovered(env: Env, src: Source): seq<DocumentRef> {
    if src.config.paths != [] then Flatten(ConfiguredParts(env, src)) else FirstNonEmptyPart(ListingParts(env, src))
  }

  /** Fetch one page and parse it; a failed fetch yields nothing. */
  method FetchPage(env: Env, src: Source, docType: string, path: string) returns (docs: seq<DocumentRef>)
    ensures docs == PageDocs(env, src, docType, path)
  {
    var url := env.join(src.baseUrl, path);
    match env.fetch(url) {
      case Some(response) =>
        docs := ParseHtml(env, src.config, response.text, url, docType);
      case None =>
        docs := [];
    }
  }

  method DiscoverConfigured(env: Env, src: Source) returns (docs: seq<DocumentRef>)
    ensures docs == Flatten(ConfiguredParts(env, src))
  {
    var paths := src.config.paths;
    ghost var parts := ConfiguredParts(env, src);
    docs := [];
    var i := 0;
    while i < |paths|
      invariant 0 <= i <= |paths|
      invariant docs == Flatten(parts[..i])
    {
      var (docType, path) := paths[i];
      var part := [];
      if path != "" {
        part := FetchPage(env, src, docType, path);
      }
      FlattenStep(parts, i);
      docs := docs + part;
      i := i + 1;
    }
    assert parts[..i] == parts;
  }

  /** The `i`-th listing page of the fallback. */
  method FetchListing(env: Env, src: Source, i: nat) returns (docs: seq<DocumentRef>)
    requires i < |ListingPaths|
    ensures docs == ListingParts(env, src)[i]
  {
    docs := FetchPage(env, src, ListingPaths[i].1, ListingPaths[i].0);
  }

  method DiscoverListings(env: Env, src: Source) returns (docs: seq<DocumentRef>)
    ensures docs == FirstNonEmptyPart(ListingParts(env, src))
  {
    ghost var parts := ListingParts(env, src);
    docs := [];
    var i := 0;
    while i < |ListingPaths|
      invariant 0 <= i <= |ListingPaths|
      invariant docs == []
      invariant forall j :: 0 <= j < i ==> parts[j] == []
    {
      docs := FetchListing(env, src, i);
      if docs != [] {
        FirstNonEmptyAt(parts, i);
        return;
      }
      i := i + 1;
    }
  }

  /** `discover()`. */
  method Discover(env: Env, src: Source) returns (docs: seq<DocumentRef>)
    ensures docs == Discovered(env, src)
  {
    if src.config.paths != [] {
      docs := DiscoverConfigured(env, src);
    } else {
      docs := DiscoverListings(env, src);
    }
  }

  /** Without configured paths: nothing when every listing is empty,
      otherwise exactly the first listing that yields documents. */
  lemma FallbackFirstListing(env: Env, src: Source, k: nat)
    requires src.config.paths == [] && k < |ListingPaths|
    requires PageDocs(env, src, ListingPaths[k].1, ListingPaths[k].0) != []
    requires forall j :: 0 <= j < k ==> PageDocs(env, src, ListingPaths[j].1, ListingPaths[j].0) == []
    ensures Discovered(env, src) == PageDocs(env, src, ListingPaths[k].1, ListingPaths[k].0)
  {
    FirstNonEmptyAt(ListingParts(env, src), k);
  }

  /** "aluehallitus" contains "hallitus" and "aluevaltuusto" contains
      "valtuusto", which come first: these bodies are never returned. */
  lemma AlueBodiesUnreachable(text: string)
    ensures ExtractBody(Bodies, text) != "Aluehallitus"
    ensures ExtractBody(Bodies, text) != "Aluevaltuusto"
  {
    assert At("aluehallitus", "hallitus", 4);
    assert At("aluevaltuusto", "valtuusto", 4);
    ShadowedBodyUnreachable(Bodies, text, 1, 10);
    ShadowedBodyUnreachable(Bodies, text, 0, 11);
  }

  /** "1/3/2025" has neither a dot nor a dash: the slash pattern reads it
      as the 1st of March 2025. */
  lemma ExampleSlashDate()
    ensures ExtractDate(FinnishIsoSlash, "1/3/2025") == Some(DateTime(2025, 3, 1, 0, 0, 0))
  {
    SlashDateOnlySlashes();
    SlashDateGroups();
    assert FinnishIsoSlash[1..][1..] == [DaySlashMonthSlashYear];
  }

  lemma SlashDateOnlySlashes()
    ensures Search("1/3/2025", DayDotMonthDotYear, 0).None?
    ensures Search("1/3/2025", YearDashMonthDashDay, 0).None?
  {
    var s := "1/3/2025";
    assert forall j :: 0 <= j < |s| ==> s[j] != '.' && s[j] != '-';
    NoSeparatorNoMatch(s, DayDotMonthDotYear);
    NoSeparatorNoMatch(s, YearDashMonthDashDay);
  }

  lemma SlashDateGroups()
    ensures MatchAt("1/3/2025", 0, DaySlashMonthSlashYear) == Some(Groups(1, 3, 2025, 1))
  {
    var s := "1/3/2025";
    assert ShortGroup(s, 0, '/') == 1;
    assert ShortGroup(s, 2, '/') == 1;
    assert AllDigits(s, 4, 4);
  }
}
