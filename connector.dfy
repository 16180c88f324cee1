/** What the four connectors share: the `DocumentRef` record and its
    external id, the connector configuration, the first-match body tables,
    the doc-type maps, and the shape of the web the connectors read.

    Network, HTML and feed parsing are inputs (an `Env`): `fetch(url)` is
    `BaseConnector.fetch` (`None` where it raises), `join` is `urljoin`,
    `html(text)` is what BeautifulSoup finds in a page and `feed(text)` the
    entries feedparser finds. */
module Connector {
  import opened Wrappers
  import opened Text
  import opened Calendar
  import FetchPolicy

  predicate IsHexChar(c: char) {
    '0' <= c <= '9' || 'a' <= c <= 'f'
  }

  /** `hashlib.sha256(...).hexdigest()`: 64 lower-case hex characters. */
  type HexDigest = h: string | |h| == 64 && forall i :: 0 <= i < |h| ==> IsHexChar(h[i])
    witness seq(64, _ => '0')

  /** Reference to a discovered municipal document. */
  datatype DocumentRef = DocumentRef(
    municipality: string,
    platform: string,
    body: string,
    meetingDate: Option<DateTime>,
    publishedAt: Option<DateTime>,
    docType: string,
    title: string,
    sourceUrl: string,
    fileUrls: seq<string>,
    externalId: string)

  /** The dataclass constructor with `__post_init__`: an empty external id
      is replaced by the first 16 hex characters of the SHA-256 of the
      source URL; a given one is kept. */
  function MakeRef(municipality: string, platform: string, body: string,
                   meetingDate: Option<DateTime>, publishedAt: Option<DateTime>,
                   docType: string, title: string, sourceUrl: string,
                   fileUrls: seq<string>, externalId: string,
                   digest: string -> HexDigest): (r: DocumentRef)
    ensures externalId != "" ==> r.externalId == externalId
    ensures externalId == "" ==>
              |r.externalId| == 16 && StartsWith(digest(sourceUrl), r.externalId)
              && forall i :: 0 <= i < 16 ==> IsHexChar(r.externalId[i])
    ensures r.sourceUrl == sourceUrl && r.fileUrls == fileUrls && r.title == title
    ensures r.municipality == municipality && r.platform == platform && r.body == body
    ensures r.docType == docType && r.meetingDate == meetingDate && r.publishedAt == publishedAt
  {
    var id := if externalId == "" then Prefix(digest(sourceUrl), 16) else externalId;
    DocumentRef(municipality, platform, body, meetingDate, publishedAt, docType, title,
                sourceUrl, fileUrls, id)
  }

  /** An RSS item's enclosure: `enc.get("type", "")` and `enc.get("href", "")`. */
  datatype Enclosure = Enclosure(mimeType: string, href: string)

  /** A feed entry: `title` and `link` (both defaulting to ""), the
      `published_parsed` time as a `datetime` if present, and the
      enclosures (none when the entry has no such attribute). */
  datatype Entry = Entry(title: string, link: string, published: Option<DateTime>,
                         enclosures: seq<Enclosure>)

  /** An `<a href=...>`: its `href`, its stripped text, and the text of its
      nearest `li`/`p`/`div`/`td`/`article`/`section` ancestor if it has one. */
  datatype Anchor = Anchor(href: string, text: string, context: Option<string>)

  /** A table row: how many `td`/`th` cells it has, its text joined with
      spaces, and the anchors inside it. */
  datatype Row = Row(cells: nat, text: string, anchors: seq<Anchor>)

  /** What the connectors look up in a parsed page: every anchor with an
      `href` (document order), every `frame`'s `src` (`""` when missing), and
      every row of every table. */
  datatype Html = Html(anchors: seq<Anchor>, frames: seq<string>, rows: seq<Row>)

  /** What a connector sees of the outside world: `self.fetch` (`None` where
      it raises), `urljoin`, BeautifulSoup's and feedparser's readings of a
      text, the SHA-256 hex digest of a URL, and case-insensitive regex search. */
  datatype Env = Env(
    fetch: string -> Option<FetchPolicy.Response>,
    join: (string, string) -> string,
    html: string -> Html,
    feed: string -> seq<Entry>,
    digest: string -> HexDigest,
    search: (string, string) -> bool)   // re.search(pattern, s, re.IGNORECASE) finds a match

  /** `config_json`: its `municipality`, its `paths` dict in insertion
      order (`{}` when missing), the optional `listing_paths` and
      `pdf_pattern` of the website connector, and the `source_type` that
      the CSV seeding writes and no connector reads. */
  datatype Config = Config(municipality: Option<string>, paths: seq<(string, string)>,
                           listingPaths: Option<seq<string>>, pdfPattern: Option<string>,
                           sourceType: Option<string>)

  /** `config or {}`. */
  const EmptyConfig := Config(None, [], None, None, None)

  /** A connector instance: the source's `base_url` and its config. */
  datatype Source = Source(baseUrl: string, config: Config)

  /** `self.config.get("municipality", "Unknown")`. */
  function Municipality(cfg: Config): (m: string)
    ensures cfg.municipality.Some? ==> m == cfg.municipality.value
    ensures cfg.municipality.None? ==> m == "Unknown"
  {
    cfg.municipality.GetOr("Unknown")
  }

  /** Some key of `keys` is a substring of `s` (`any(k in s for k in keys)`). */
  predicate ContainsAny(s: string, keys: seq<string>) {
    exists i :: 0 <= i < |keys| && Contains(s, keys[i])
  }

  /** The index of the first table key contained in `t`. */
  function FirstKeyIndex(table: seq<(string, string)>, t: string): (r: Option<nat>)
    ensures r.Some? ==> r.value < |table| && Contains(t, table[r.value].0)
    ensures r.Some? ==> forall k :: 0 <= k < r.value ==> !Contains(t, table[k].0)
    ensures r.None? <==> forall k :: 0 <= k < |table| ==> !Contains(t, table[k].0)
  {
    if table == [] then None
    else if Contains(t, table[0].0) then Some(0)
    else match FirstKeyIndex(table[1..], t)
      case Some(k) => Some(k + 1)
      case None => None
  }

  const UnknownBody := "Tuntematon"

  /** `_extract_body`: the value of the first key (in table order) that
      occurs in the lower-cased text, `"Tuntematon"` when none does. */
  function ExtractBody(table: seq<(string, string)>, text: string): string {
    match FirstKeyIndex(table, Lower(text))
    case None => UnknownBody
    case Some(k) => table[k].1
  }

  /** The body is the value of the first key occurring in the lower-cased
      text, or `"Tuntematon"` exactly when no key occurs. */
  lemma ExtractBodyFirstMatch(table: seq<(string, string)>, text: string)
    requires forall k :: 0 <= k < |table| ==> table[k].1 != UnknownBody
    ensures ExtractBody(table, text) == UnknownBody <==>
              forall k :: 0 <= k < |table| ==> !Contains(Lower(text), table[k].0)
    ensures ExtractBody(table, text) != UnknownBody ==>
              exists k :: 0 <= k < |table| && Contains(Lower(text), table[k].0)
                && ExtractBody(table, text) == table[k].1
                && forall m :: 0 <= m < k ==> !Contains(Lower(text), table[m].0)
  {
    match FirstKeyIndex(table, Lower(text)) {
      case None =>
      case Some(k) =>
        assert ExtractBody(table, text) == table[k].1;
    }
  }

  /** A key that contains an earlier key is never the first match. */
  lemma ShadowedKeyNeverFirst(table: seq<(string, string)>, t: string, i: nat, j: nat)
    requires i < j < |table| && Contains(table[j].0, table[i].0)
    ensures FirstKeyIndex(table, t) != Some(j)
  {
    if FirstKeyIndex(table, t) == Some(j) {
      ContainsTransitive(t, table[j].0, table[i].0);
      assert false;
    }
  }

  /** Hence its value is never returned, if no other entry has it. */
  lemma ShadowedBodyUnreachable(table: seq<(string, string)>, text: string, i: nat, j: nat)
    requires i < j < |table| && Contains(table[j].0, table[i].0)
    requires forall k :: 0 <= k < |table| && k != j ==> table[k].1 != table[j].1
    requires table[j].1 != UnknownBody
    ensures ExtractBody(table, text) != table[j].1
  {
    ShadowedKeyNeverFirst(table, Lower(text), i, j);
  }

  /** A key that occurs in the text is found unless an earlier key occurs
      too: `_extract_body` never answers `"Tuntematon"` for a text holding a
      key. */
  lemma KeyInTextFound(table: seq<(string, string)>, text: string, j: nat)
    requires j < |table| && Contains(Lower(text), table[j].0)
    ensures FirstKeyIndex(table, Lower(text)).Some?
    ensures FirstKeyIndex(table, Lower(text)).value <= j
  {
  }

  /** `table.get(key, default)` for a dict literal (first entry wins, keys
      being distinct in the literal). */
  function LookupOr(table: seq<(string, string)>, key: string, default: string): (r: string)
    ensures (forall k :: 0 <= k < |table| ==> table[k].0 != key) ==> r == default
    ensures forall k :: (0 <= k < |table| && table[k].0 == key
              && forall m :: 0 <= m < k ==> table[m].0 != key) ==> r == table[k].1
  {
    if table == [] then default
    else if table[0].0 == key then table[0].1
    else LookupOr(table[1..], key, default)
  }

  /** `self._extract_date(text) or published_dt`. */
  function OrElse(d: Option<DateTime>, fallback: Option<DateTime>): (r: Option<DateTime>)
    ensures d.Some? ==> r == d
    ensures d.None? ==> r == fallback
  {
    if d.Some? then d else fallback
  }

  /** The document an `if ...: documents.append(doc)` step adds, if any. */
  function AsSeq<T>(o: Option<T>): seq<T> {
    if o.Some? then [o.value] else []
  }

  /** `text or default`. */
  function OrDefault(s: string, default: string): (r: string)
    ensures s != "" ==> r == s
    ensures s == "" ==> r == default
  {
    if s != "" then s else default
  }

  /** `documents.extend(part)` for each part in turn. */
  function Flatten(parts: seq<seq<DocumentRef>>): (r: seq<DocumentRef>)
    ensures forall d :: d in r <==> exists i :: 0 <= i < |parts| && d in parts[i]
  {
    if parts == [] then []
    else
      var init := parts[..|parts| - 1];
      assert forall i :: 0 <= i < |init| ==> init[i] == parts[i];
      Flatten(init) + parts[|parts| - 1]
  }

  /** Extending by one more part. */
  lemma FlattenStep(parts: seq<seq<DocumentRef>>, i: nat)
    requires i < |parts|
    ensures Flatten(parts[..i + 1]) == Flatten(parts[..i]) + parts[i]
  {
    assert parts[..i + 1][..i] == parts[..i];
  }

  /** The loop `extend; if documents: break` over candidates tried while
      nothing was found yet: the index of the first non-empty part. */
  function FirstNonEmpty(parts: seq<seq<DocumentRef>>): (r: Option<nat>)
    ensures r.Some? ==> r.value < |parts| && parts[r.value] != []
    ensures r.Some? ==> forall j :: 0 <= j < r.value ==> parts[j] == []
    ensures r.None? <==> forall j :: 0 <= j < |parts| ==> parts[j] == []
  {
    if parts == [] then None
    else if parts[0] != [] then Some(0)
    else match FirstNonEmpty(parts[1..])
      case Some(k) => Some(k + 1)
      case None => None
  }

  /** The documents such a loop ends with. */
  function FirstNonEmptyPart(parts: seq<seq<DocumentRef>>): (r: seq<DocumentRef>)
    ensures r == [] <==> forall j :: 0 <= j < |parts| ==> parts[j] == []
    ensures r != [] ==> exists k :: 0 <= k < |parts| && r == parts[k] && forall j :: 0 <= j < k ==> parts[j] == []
  {
    match FirstNonEmpty(parts)
    case None => []
    case Some(k) => parts[k]
  }

  /** A loop that stops at part `k`, having seen only empty parts before,
      ends with exactly what the specification says. */
  lemma FirstNonEmptyAt(parts: seq<seq<DocumentRef>>, k: nat)
    requires k < |parts| && parts[k] != []
    requires forall j :: 0 <= j < k ==> parts[j] == []
    ensures FirstNonEmptyPart(parts) == parts[k]
  {
    var r := FirstNonEmpty(parts);
    if r.None? || r.value != k {
      assert false;
    }
  }

  /** Trying the candidates of `a` and, only when all gave nothing, those
      of `b` is trying `a + b`. */
  lemma FirstNonEmptyAppend(a: seq<seq<DocumentRef>>, b: seq<seq<DocumentRef>>)
    ensures FirstNonEmptyPart(a + b) ==
              if FirstNonEmptyPart(a) != [] then FirstNonEmptyPart(a) else FirstNonEmptyPart(b)
  {
    var ab := a + b;
    match FirstNonEmpty(a) {
      case Some(k) =>
        FirstNonEmptyAt(ab, k);
      case None =>
        match FirstNonEmpty(b) {
          case Some(k) =>
            assert ab[|a| + k] == b[k];
            FirstNonEmptyAt(ab, |a| + k);
          case None =>
            assert forall j :: 0 <= j < |ab| ==> ab[j] == (if j < |a| then a[j] else b[j - |a|]);
        }
    }
  }
}
