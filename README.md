# Watchdog, modelled in Dafny

Watchdog is a civic-intelligence pipeline for the municipalities of Finnish
Lapland. It reads the document portals of municipal councils and regional
bodies on four kinds of platform: CloudNC, Dynasty, TWeb and plain municipal
websites. It records every meeting document it finds and downloads its PDF
files. It extracts their text, directly or by OCR. A small language model
triages each document for environmental relevance, and a larger one turns
strong candidates into cases with evidence and a timeline. An admin command
line and a small web application sit on top.

This project models the core of that pipeline and proves what it promises.
The modules follow the program:

- `Models` holds the tables' rows, their status enumerations and their
  column defaults. A row's id is its position plus one.
- `Database` bundles all tables into one value, `Db`. It also defines
  `Store`, a class whose fields are the tables; the stage methods update it
  in place.
- `Text`, `Calendar` and `DateExtract` provide the string helpers, the date
  checks and the three date patterns the connectors search for.
- `UrlSafety`, `RateLimiting`, `FetchPolicy` and `Connector` model the
  connector base: the SSRF guard, the per-domain rate limiter, the fetch
  retry loop and the `DocumentRef` record.
- `CloudNC`, `Dynasty`, `TWeb` and `MunicipalWebsite` model the four
  connectors.
- `Discovery`, `FetchStage`, `ExtractStage`, `Triage` and `CaseBuilder` model
  the five pipeline stages.
- `SqlLike` models SQLite's `LIKE`, which case building's permit lookup
  uses through SQLAlchemy's `contains`: `%` and `_` in the permit are
  wildcards, and ASCII letters match without case.
- `Seed` holds the Lapland source table and its upsert.
- `Cli` and `Pipeline` model the admin commands and `run-pipeline`.
- `App` models the web application's admin check and feed filter.

Each stage is specified by a function from one `Db` to the next. Its method
on `Store` is proved to leave exactly that state. Lemmas then prove the
stage's promises about the function.

Everything outside the database is an input. That covers web pages and
feeds, `urljoin`, SHA-256, downloads, the PDF and OCR engines, the language
model's replies, DNS and the clock. Each is given as a value or a function
parameter, and `None` stands for the exception it would raise.

`SessionLocal` is created with `autoflush=False` (`watchdog/db/models.py:378`).
So a query sees only the rows that were flushed before it. The model keeps
that distinction wherever the code relies on it.

## Model

| member | source | states |
|---|---|---|
| Models.ParseDocumentStatus | watchdog/db/models.py:36-41 | reading a stored document status succeeds exactly on "new", "fetched", "processed" and "error" |
| Models.DocumentStatusRoundTrip | watchdog/db/models.py:36-41 | each status reads back from its stored string, and a string that reads as a status is that status's stored string |
| Models.ParseTextStatus | watchdog/db/models.py:44-50 | reading a stored text status succeeds exactly on the five stored strings |
| Models.TextStatusRoundTrip | watchdog/db/models.py:44-50 | each text status reads back from its stored string, and only from it |
| Models.ParseCaseStatus | watchdog/db/models.py:53-57 | reading a stored case status succeeds exactly on "proposed", "approved" and "unknown" |
| Models.CaseStatusRoundTrip | watchdog/db/models.py:53-57 | each case status reads back from its stored string, and only from it |
| Models.ParseConfidence | watchdog/db/models.py:60-64 | reading a stored confidence succeeds exactly on "high", "medium" and "low" |
| Models.ConfidenceRoundTrip | watchdog/db/models.py:60-64 | each confidence reads back from its stored string, and only from it |
| Models.NewSource | watchdog/db/models.py:89-99 | a new source is enabled, has no failures, no last success and no last error, and keeps the given municipality, platform, URL and configuration |
| Models.NewDocument | watchdog/pipeline/discover.py:84-94 | the inserted document copies the reference's fields, has status "new" and has neither a content hash nor triage results |
| Models.NewFile | watchdog/pipeline/discover.py:100-105 | a new file row is a pending PDF with no storage path, size, text or fetch time |
| Models.DefaultCase | watchdog/db/models.py:188-193 | a case created without status or confidence gets "unknown" and "medium", with the given category, headline and summary |
| Database.IdsWhere | watchdog/pipeline/fetch.py:44-47 | a filter query returns ids of matching rows only, in ascending table order, and every matching row's id |
| Database.QueryFiles | watchdog/pipeline/fetch.py:44-47 | the loop over the file table returns exactly the filter query's ids |
| Database.Store.constructor | watchdog/db/models.py:379-382 | a freshly created database has every table empty |
| Calendar.MakeDate | watchdog/connectors/cloudnc.py:230-236 | `datetime(y, m, d)` yields a value exactly for a valid calendar date between years 1 and 9999, at midnight and holding the given year, month and day |
| Calendar.DaysInMonth | watchdog/connectors/cloudnc.py:230-236 | a month has 28 to 31 days, and February has 29 exactly in a leap year |
| Text.Prefix | watchdog/connectors/base.py:102 | `s[:n]` is the whole string when shorter than `n`, otherwise its first `n` characters |
| Text.Lower | watchdog/connectors/cloudnc.py:212 | lower-casing maps each character on its own, A to Z and Ä, Ö, Å to their lower-case letters, so the length is kept |
| Text.Strip | watchdog/cli.py:60 | `strip()` leaves neither leading nor trailing white space and never lengthens the text |
| Text.JoinEmpty | watchdog/pipeline/triage.py:163 | joining non-empty parts gives "" exactly when there are no parts |
| Text.NatToString | watchdog/pipeline/fetch.py:60 | `str(n)` is a non-empty run of decimal digits |
| Text.NatToStringInjective | watchdog/pipeline/fetch.py:60 | distinct numbers have distinct decimal forms |
| Text.ContainsTransitive | watchdog/connectors/cloudnc.py:213-215 | a text containing `b` contains every substring of `b` |
| Connector.MakeRef | watchdog/connectors/base.py:83-102 | a given external id is kept; an empty one becomes the first 16 hex characters of the SHA-256 of the source URL; every other field is copied |
| Connector.Municipality | watchdog/connectors/cloudnc.py:116 | the configured municipality, or "Unknown" when it is not configured |
| Connector.FirstKeyIndex | watchdog/connectors/cloudnc.py:212-217 | the first table key contained in the text, no earlier key being contained; no index exactly when no key is contained |
| Connector.ExtractBodyFirstMatch | watchdog/connectors/cloudnc.py:192-217 | the body is the value of the first key that occurs in the lower-cased text, and "Tuntematon" exactly when no key occurs |
| Connector.ShadowedKeyNeverFirst | watchdog/connectors/cloudnc.py:213-215 | a key that contains an earlier key of the table is never the first match |
| Connector.ShadowedBodyUnreachable | watchdog/connectors/cloudnc.py:213-215 | the value of such a shadowed key is never returned when no other key has it |
| Connector.KeyInTextFound | watchdog/connectors/cloudnc.py:213-215 | a text holding some key always gets a body, from that key or an earlier one |
| Connector.LookupOr | watchdog/connectors/cloudnc.py:136-143 | `dict.get(key, default)`: the value of the key's first entry, or the default for a missing key |
| Connector.OrElse | watchdog/connectors/cloudnc.py:105 | `a or b` on optional dates: the first when present, otherwise the second |
| Connector.OrDefault | watchdog/connectors/cloudnc.py:184 | `text or default`: the text when non-empty, otherwise the default |
| Connector.Flatten | watchdog/connectors/cloudnc.py:47-57 | extending by one part after another yields exactly the documents of some part |
| Connector.FirstNonEmpty | watchdog/connectors/cloudnc.py:76-85 | the first candidate that produced documents, all before it having produced none; none exactly when all produced none |
| Connector.FirstNonEmptyPart | watchdog/connectors/cloudnc.py:76-85 | the loop that breaks once documents were found ends with the first non-empty part, or nothing when every part was empty |
| Connector.FirstNonEmptyAt | watchdog/connectors/cloudnc.py:76-85 | a loop that breaks at part `k`, all earlier parts being empty, ends with exactly part `k` |
| Connector.FirstNonEmptyAppend | watchdog/connectors/cloudnc.py:69-85 | trying one candidate list and, only when all of it gave nothing, a second is trying their concatenation |
| DateExtract.MatchAt | watchdog/connectors/cloudnc.py:221-227 | a match reported at a position has the regular expression's shape there, with the reported first-group length |
| DateExtract.MatchAtComplete | watchdog/connectors/cloudnc.py:221-227 | wherever the regular expression matches, the matcher finds a match there with the same first-group length |
| DateExtract.Search | watchdog/connectors/cloudnc.py:227 | `re.search` returns the leftmost position where the pattern matches, with its groups; none exactly when no position matches |
| DateExtract.GroupsToDate | watchdog/connectors/cloudnc.py:229-236 | a match gives a date only when the groups form a valid calendar date, year first for a four-digit first group and day first otherwise |
| DateExtract.ExtractDateValid | watchdog/connectors/cloudnc.py:219-238 | every extracted date is a valid calendar date at midnight |
| DateExtract.ExtractDateChoice | watchdog/connectors/cloudnc.py:226-238 | the result is the date of some pattern's leftmost match, and none exactly when no pattern's leftmost match is a valid date |
| DateExtract.FinnishFirst | watchdog/connectors/tweb.py:207-222 | a valid leftmost D.M.YYYY date wins over any ISO or slashed date, with two patterns or three |
| DateExtract.FinnishFallsThrough | watchdog/connectors/cloudnc.py:226-238 | when the leftmost D.M.YYYY match is missing or invalid, the ISO pattern's leftmost match decides |
| DateExtract.ExampleFinnishDate | watchdog/connectors/cloudnc.py:222 | "12.3.2025" is read as 12 March 2025 |
| DateExtract.NoSeparatorNoMatch | watchdog/connectors/cloudnc.py:221-224 | a pattern does not match a text that lacks its separator |
| DateExtract.ExampleInvalidLeftmost | watchdog/connectors/cloudnc.py:226-236 | in "31.2.2025 1.3.2025" the invalid first date is not searched past, so no date is found |
| UrlSafety.FirstBlocking | watchdog/connectors/base.py:70-72 | the loop finds the first blocked network that holds the address, no earlier one holding it; none exactly when no network holds it |
| UrlSafety.IsSafeUrl | watchdog/connectors/base.py:32-80 | a URL that passes has an http or https scheme and a host inside the allowed domain, and that host resolves to an address outside every blocked network |
| UrlSafety.SafeExactly | watchdog/connectors/base.py:48-80 | the guard accepts exactly those URLs: both directions |
| UrlSafety.IPv6EntriesNeverMatch | watchdog/connectors/base.py:26-28 | an IPv4 address from `gethostbyname` is never in the three IPv6 networks |
| UrlSafety.SuffixIsNotSubdomain | watchdog/connectors/base.py:59-63 | "evilexample.com" is not accepted for the domain "example.com" |
| UrlSafety.SubdomainAllowed | watchdog/connectors/base.py:59-63 | "www.example.com" passes the domain restriction for "example.com" |
| UrlSafety.LoopbackBlocked | watchdog/connectors/base.py:24 | 127.0.0.1 is blocked |
| UrlSafety.PrivateTenBlocked | watchdog/connectors/base.py:21 | 10.0.0.5 is blocked |
| UrlSafety.PrivateOneNineTwoBlocked | watchdog/connectors/base.py:23 | 192.168.1.1 is blocked |
| RateLimiting.AcquireSleeps | watchdog/connectors/base.py:117-122 | `acquire` sleeps at most once, and only when less than the interval has passed; the sleep ends exactly one interval after the previous request |
| RateLimiting.AcquiredAt | watchdog/connectors/base.py:117-124 | the recorded time is at least one interval after the previous request and never before the call |
| RateLimiting.RateLimiter.constructor | watchdog/connectors/base.py:108-111 | a limiter starts with no requests recorded and an interval of one over the rate |
| RateLimiting.RateLimiter.Acquire | watchdog/connectors/base.py:114-124 | the domain's new time is at least one interval after its previous one; every other domain is unchanged |
| FetchPolicy.RetryBound | watchdog/connectors/base.py:167-186 | `fetch` makes at most `retries` requests |
| FetchPolicy.RetryOutcome | watchdog/connectors/base.py:168-180 | a response is returned only when the last request answered 2xx, and it is that response; a failing status other than 429 or 503 is raised after its one request |
| FetchPolicy.ExhaustedRaisesLast | watchdog/connectors/base.py:167-186 | when every request fails in a retried way, all `retries` of them are made and the last error is raised |
| FetchPolicy.NoRetriesNoRequest | watchdog/connectors/base.py:186 | with no attempts allowed, the generic "Max retries exceeded" is raised without any request |
| FetchPolicy.ThreeOverloads | watchdog/connectors/base.py:174-178 | three 503 answers give back-off sleeps of 2, 4 and 8 seconds, after which the 503 is raised |
| FetchPolicy.ThreeTransportErrors | watchdog/connectors/base.py:181-184 | three transport errors give sleeps of 1 and 2 seconds, only between attempts, after which the last error is raised |
| FetchPolicy.RetryLoop | watchdog/connectors/base.py:167-186 | the retry loop returns the traced result and request count, and takes exactly the traced back-off sleeps |
| FetchPolicy.Fetch | watchdog/connectors/base.py:156-186 | an unsafe URL is refused before any request and without touching the rate limiter; a safe one acquires the limiter for its domain once and then runs the retry loop |
| Discovery.GetConnector | watchdog/pipeline/discover.py:14-30 | a connector exists exactly for the four supported platforms, and it is registered under that platform's key |
| Discovery.ConnectorKeys | watchdog/pipeline/discover.py:21-26 | each connector is found under its own key, and the key is the platform name the connector writes into its documents |
| Discovery.DiscoverFromSource | watchdog/pipeline/discover.py:39-56 | the source id is kept; there is no error exactly when the platform is supported and the connector did not raise; an error carries no references; an unsupported platform gives "Unsupported platform: <platform>" and a raise gives its message |
| Discovery.Health | watchdog/pipeline/discover.py:68-113 | an error adds one failure and records the error, keeping the last success; a success clears failures and error and records the time; nothing else of the row changes |
| Discovery.TrailingFailures | watchdog/pipeline/discover.py:68-113 | the number of failed runs since the last success, never more than the runs |
| Discovery.FailuresCountTrailing | watchdog/pipeline/discover.py:68-113 | after several runs the failure counter is the number of failures since the last success (added to the old count only if no run succeeded), and the last error is that of the last run if it failed |
| Discovery.HealthKeepsConsistent | watchdog/pipeline/discover.py:68-113 | a source has a last error exactly when it has failures, and every run keeps this |
| Discovery.EmptyMessageCountsAsSuccess | watchdog/pipeline/discover.py:53-68 | a connector exception with an empty message is recorded as a success, resetting the failure counter |
| Discovery.DuplicatesRepresentable | watchdog/db/models.py:116-119 | the index on `(source_id, external_id)` is not unique, so the schema admits two documents with the same pair |
| Discovery.NewFiles | watchdog/pipeline/discover.py:99-106 | one pending PDF row per file URL, in order |
| Discovery.SaveRefsAppends | watchdog/pipeline/discover.py:73-108 | saving only appends documents and files, and the returned count is the number of documents added |
| Discovery.SaveRefsAddsNew | watchdog/pipeline/discover.py:84-106 | every added document is "new", has no hash and belongs to the source; every added file is a pending PDF of an added document |
| Discovery.SaveRefsKeepsPair | watchdog/pipeline/discover.py:73-108 | a `(source_id, external_id)` pair once present stays present |
| Discovery.SaveRefsCoversAll | watchdog/pipeline/discover.py:73-95 | after saving, every reference's pair is present |
| Discovery.SaveRefsKeepsUnique | watchdog/pipeline/discover.py:75-95 | saving never creates a duplicate pair, also among documents added earlier in the same call |
| Discovery.SaveRefsAllPresent | watchdog/pipeline/discover.py:75-81 | when every reference is already known, nothing is saved |
| Discovery.SaveRefsIdempotent | watchdog/pipeline/discover.py:73-108 | saving the same references a second time adds nothing and returns 0 |
| Discovery.FindDocument | watchdog/pipeline/discover.py:75-78 | the existence query is true exactly when a document with the pair exists, counting rows added earlier in the call |
| Discovery.AddFiles | watchdog/pipeline/discover.py:99-106 | the file loop appends the new file rows and changes nothing else |
| Discovery.ErrorSavesNothing | watchdog/pipeline/discover.py:68-71 | on an error no document is inserted, 0 is returned and only the source's health changes |
| Discovery.SavedKeepsInvariants | watchdog/pipeline/discover.py:59-115 | saving keeps every foreign key valid and the pairs unique |
| Discovery.SaveDiscoveredDocuments | watchdog/pipeline/discover.py:59-115 | the tables and the count after `save_discovered_documents` are those of its specification |
| Discovery.EnabledIds | watchdog/pipeline/discover.py:140 | the query returns the ids of enabled sources only, in ascending order, and all of them |
| Discovery.Gathered | watchdog/pipeline/discover.py:118-132 | at most one outcome per queried source; each outcome is that source's own result, for an enabled source whose task did not crash |
| Discovery.GatheredOnce | watchdog/pipeline/discover.py:118-132 | every queried source whose task did not crash has exactly one gathered outcome, as the result map keyed by source id has |
| Discovery.OutcomeIsResult | watchdog/pipeline/discover.py:118-132 | a gathered outcome is its source's connector result |
| Discovery.GatheredInRange | watchdog/pipeline/discover.py:118-132 | every gathered outcome names a source of the table |
| Discovery.HandleAllKeepsInvariants | watchdog/pipeline/discover.py:157-172 | the result loop keeps every foreign key valid and the pairs unique |
| Discovery.HandleAllLeavesRow | watchdog/pipeline/discover.py:157-167 | a source whose outcomes are all skipped keeps its row |
| Discovery.UnsupportedSkipped | watchdog/pipeline/discover.py:162-165 | the outcome of an unsupported platform is skipped |
| Discovery.HandleKeepsPair | watchdog/pipeline/discover.py:157-170 | one iteration of the result loop keeps every `(source_id, external_id)` pair already present |
| Discovery.HandleAllSaves | watchdog/pipeline/discover.py:155-170 | after the result loop, every reference of an outcome without error has its pair present |
| Discovery.HandleAllOnce | watchdog/pipeline/discover.py:155-170 | the only outcome of a source decides its row after the result loop: unchanged when skipped for the platform, its health update otherwise |
| Discovery.RecordedRow | watchdog/pipeline/discover.py:155-170 | the row of the source named by its only outcome after the result loop is that outcome's update |
| Discovery.GatheredHealth | watchdog/pipeline/discover.py:118-170 | over the outcomes gathered for the queried sources, the row of each non-crashed source after the loop is its only outcome's update |
| Discovery.GatheredSaves | watchdog/pipeline/discover.py:118-170 | over the outcomes gathered for the queried sources, every reference of a non-crashed source without error has its pair present after the loop |
| Discovery.UntouchedSource | watchdog/pipeline/discover.py:135-173 | a disabled source, a crashed task and an unsupported platform leave the source's row, health counters included, as it was |
| Discovery.DiscoveredKeepsInvariants | watchdog/pipeline/discover.py:135-173 | a discovery run keeps every foreign key valid and the pairs unique |
| Discovery.DiscoveredHealth | watchdog/pipeline/discover.py:135-173 | after a run, an enabled source whose task did not crash keeps its row when its result is skipped as unsupported, and otherwise carries the health update of its connector's result: failures counted on error, success stamped otherwise |
| Discovery.DiscoveredSaves | watchdog/pipeline/discover.py:135-173 | after a run, every reference found by an enabled source whose task did not crash and reported no error has its `(source_id, external_id)` pair present |
| Discovery.QueryEnabled | watchdog/pipeline/discover.py:140 | the query loop returns exactly the enabled ids |
| Discovery.GatherResults | watchdog/pipeline/discover.py:118-132 | the gather loop returns exactly the gathered outcomes |
| Discovery.HandleOutcome | watchdog/pipeline/discover.py:157-170 | one iteration of the result loop leaves the database as its specification says |
| Discovery.HandleResults | watchdog/pipeline/discover.py:155-170 | the result loop leaves the database as its specification says |
| Discovery.Run | watchdog/pipeline/discover.py:135-173 | `run()` leaves the database as the discovery specification says |
| CloudNC.InternalDocType | watchdog/connectors/cloudnc.py:136-143 | each of the five listing keys maps to its document type, and any other key to "minutes" |
| CloudNC.RssDoc | watchdog/connectors/cloudnc.py:94-126 | an entry gives a document exactly when it has a link; the document is "minutes" at that link, carries the entry's title, publication time and PDF enclosures, is dated by its title or else by the publication time, and takes its body from the title |
| CloudNC.RssDocsFrom | watchdog/connectors/cloudnc.py:94-128 | every document the feed yields is the document of one of its entries |
| CloudNC.RssDocsAreLinkedMinutes | watchdog/connectors/cloudnc.py:114-126 | every feed document is "minutes" whose URL is the link of some entry |
| CloudNC.CollectPdfEnclosures | watchdog/connectors/cloudnc.py:108-112 | the enclosure loop keeps the hrefs of the enclosures typed `application/pdf`, in order |
| CloudNC.ParseRssEntry | watchdog/connectors/cloudnc.py:95-126 | one iteration of the entry loop yields the entry's document as specified |
| CloudNC.ParseRss | watchdog/connectors/cloudnc.py:89-128 | `_parse_rss` returns one document per linked entry, in feed order |
| CloudNC.CollectPdfLinks | watchdog/connectors/cloudnc.py:166-169 | the PDF links of a meeting page are the `.pdf` or `download` hrefs, resolved against the page, in order |
| CloudNC.MeetingFiles | watchdog/connectors/cloudnc.py:161-173 | when the meeting page cannot be fetched, the files are just the link itself, and only when it names a PDF |
| CloudNC.LinkDoc | watchdog/connectors/cloudnc.py:146-188 | an anchor gives a document exactly when a keyword is in its href or text, it is not a link back to the page nor holds "#", and it has files or a document hint; the document has the resolved URL, its files, the text or "Document" as title, the mapped type, the text's date and no publication time |
| CloudNC.ParseLink | watchdog/connectors/cloudnc.py:146-188 | the loop body for one anchor yields the anchor's document as specified |
| CloudNC.ParseLinks | watchdog/connectors/cloudnc.py:146-190 | the link loop yields the anchors' documents in document order |
| CloudNC.ParseHtml | watchdog/connectors/cloudnc.py:130-190 | `_parse_html` parses the page's anchors under the mapped document type |
| CloudNC.PathDocs | watchdog/connectors/cloudnc.py:47-57 | an empty configured path, or one whose fetch fails, contributes nothing |
| CloudNC.ConfiguredParts | watchdog/connectors/cloudnc.py:47-57 | one part per configured path, in insertion order, each that path's listing |
| CloudNC.FeedDocs | watchdog/connectors/cloudnc.py:61-67 | a feed that cannot be fetched contributes nothing |
| CloudNC.DefaultParts | watchdog/connectors/cloudnc.py:72-85 | the two default listings, in the order they are tried |
| CloudNC.FetchListing | watchdog/connectors/cloudnc.py:50-57 | one non-empty listing path is fetched and parsed as its specification says |
| CloudNC.DiscoverConfigured | watchdog/connectors/cloudnc.py:45-57 | the configured branch concatenates the listings of all paths, in order |
| CloudNC.FetchFeed | watchdog/connectors/cloudnc.py:61-67 | the feed is fetched and parsed as its specification says |
| CloudNC.DiscoverFallback | watchdog/connectors/cloudnc.py:58-85 | the fallback returns the feed's documents, or else those of the first default listing that has any |
| CloudNC.Discover | watchdog/connectors/cloudnc.py:38-87 | `discover()` returns the configured listings when paths are configured, the fallback otherwise |
| CloudNC.ConfiguredCoversEveryPath | watchdog/connectors/cloudnc.py:45-57 | with paths configured, a document is discovered exactly when it is in some path's listing: a failing path does not stop the others |
| CloudNC.FallbackOrder | watchdog/connectors/cloudnc.py:58-85 | without paths, the feed wins when it yields documents, then "/fi-FI/Toimielimet", then "/fi-FI" |
| CloudNC.DocTypeExamples | watchdog/connectors/cloudnc.py:136-143 | "meetings" gives "minutes", "zoning" gives "zoning", and the unknown key "minutes" falls back to "minutes" |
| CloudNC.SpecificBodiesFirst | watchdog/connectors/cloudnc.py:194-215 | "kaupunginvaltuusto" in the text gives that council, and "kunnanvaltuusto" gives its own council rather than the generic "Valtuusto" |
| Dynasty.InternalDocType | watchdog/connectors/dynasty.py:114-120 | the four listing keys map to their document types, and any other key, "zoning" included, to "minutes" |
| Dynasty.RssDoc | watchdog/connectors/dynasty.py:122-146 | every entry gives a document, link-less ones included, at the entry's link with no files, the mapped type and the entry's title and publication time, dated by its title or else the publication time |
| Dynasty.RssDocs | watchdog/connectors/dynasty.py:108-148 | the feed yields exactly as many documents as entries |
| Dynasty.RssDocsPerEntry | watchdog/connectors/dynasty.py:122-146 | the `k`-th document is the `k`-th entry's, in feed order |
| Dynasty.ParseRss | watchdog/connectors/dynasty.py:108-148 | `_parse_rss` returns one document per entry under the mapped type |
| Dynasty.FileLinksFrom | watchdog/connectors/dynasty.py:216-219 | every file link of a meeting page is a `.pdf`, `download` or `fileshow` href resolved against the page |
| Dynasty.PdfLinksOf | watchdog/connectors/dynasty.py:209-223 | a meeting page that cannot be fetched yields no file links |
| Dynasty.GetPdfLinks | watchdog/connectors/dynasty.py:209-223 | `_get_pdf_links` returns the page's file links in order, or none when the page cannot be fetched |
| Dynasty.FramesEndOnFetchedPage | watchdog/connectors/dynasty.py:165-175 | after the frame loop the links are read from the original page, or from the page that the final URL served |
| Dynasty.NoFrameKeepsPage | watchdog/connectors/dynasty.py:165-175 | without a qualifying frame the page and its URL are kept |
| Dynasty.FollowFrameLoop | watchdog/connectors/dynasty.py:165-175 | the frame loop ends on the page and URL its specification gives, the last fetchable qualifying frame winning |
| Dynasty.LinkDoc | watchdog/connectors/dynasty.py:178-205 | an anchor gives a document exactly when its href holds one of the patterns, does not lead back to the page and does not start with "#"; the document has the resolved URL, that page's file links, the text or "Document" as title, the mapped type, the text's date and no publication time |
| Dynasty.LinkDocsFrom | watchdog/connectors/dynasty.py:178-205 | every listed document comes from an accepted anchor |
| Dynasty.ParseLink | watchdog/connectors/dynasty.py:179-205 | the loop body for one anchor yields the anchor's document as specified |
| Dynasty.ParseLinks | watchdog/connectors/dynasty.py:178-207 | the link loop yields the anchors' documents in document order |
| Dynasty.ParseHtml | watchdog/connectors/dynasty.py:150-207 | `_parse_html` reads the links of the page reached through the frames, resolved against that page's URL |
| Dynasty.PathDocs | watchdog/connectors/dynasty.py:48-62 | an empty configured path, or one whose fetch fails, contributes nothing |
| Dynasty.ConfiguredParts | watchdog/connectors/dynasty.py:48-62 | one part per configured path, in insertion order, each that path's documents |
| Dynasty.FeedDocs | watchdog/connectors/dynasty.py:73-83 | a fallback feed path yields documents only when it was fetched and looks like a feed |
| Dynasty.ListingDocs | watchdog/connectors/dynasty.py:94-104 | a fallback listing yields documents only when it was fetched and its content type mentions html |
| Dynasty.FeedParts | watchdog/connectors/dynasty.py:66-83 | the three feed paths, in the order they are tried |
| Dynasty.ListingParts | watchdog/connectors/dynasty.py:87-104 | the four listing paths with their listing keys, in the order they are tried |
| Dynasty.FetchPath | watchdog/connectors/dynasty.py:49-62 | one configured path is fetched and read as a feed or as HTML, as its specification says |
| Dynasty.DiscoverConfigured | watchdog/connectors/dynasty.py:46-62 | the configured branch concatenates the documents of all paths, in order |
| Dynasty.FetchFeed | watchdog/connectors/dynasty.py:74-83 | one fallback feed path is fetched and read as its specification says |
| Dynasty.DiscoverFeeds | watchdog/connectors/dynasty.py:73-83 | the feed loop returns the documents of the first feed that has any |
| Dynasty.FetchListing | watchdog/connectors/dynasty.py:95-104 | one fallback listing is fetched and read as its specification says |
| Dynasty.DiscoverListings | watchdog/connectors/dynasty.py:94-104 | the listing loop returns the documents of the first listing that has any |
| Dynasty.Discover | watchdog/connectors/dynasty.py:39-106 | `discover()` returns the configured documents when paths are configured; otherwise the feeds, and the listings only when no feed yielded documents |
| Dynasty.ConfiguredCoversEveryPath | watchdog/connectors/dynasty.py:46-62 | with paths configured, a document is discovered exactly when it is in some path's documents |
| Dynasty.FallbackIsOneSearch | watchdog/connectors/dynasty.py:63-104 | without paths, the feeds and then the listings are one list of candidates, the first that yields documents deciding |
| Dynasty.ZoningIsMinutes | watchdog/connectors/dynasty.py:114-120 | "zoning" is not in this connector's map and gives "minutes" |
| Dynasty.MaakuntaBodiesUnreachable | watchdog/connectors/dynasty.py:227-247 | "Maakuntahallitus" and "Maakuntavaltuusto" are never returned, because the keys "hallitus" and "valtuusto" come first and are contained in theirs |
| TWeb.InternalDocType | watchdog/connectors/tweb.py:90-96 | the four listing keys map to their document types, and any other key to "minutes" |
| TWeb.PdfLinksOf | watchdog/connectors/tweb.py:165-179 | a linked page that cannot be fetched yields no file links |
| TWeb.GetPdfLinks | watchdog/connectors/tweb.py:165-179 | `_get_pdf_links` returns the page's `fileshow` and `.pdf` links resolved against it, or none when the page cannot be fetched |
| TWeb.RowLinkDoc | watchdog/connectors/tweb.py:106-136 | a row's link gives a document exactly when its href holds one of the patterns; a file href is its own single file, another link gets the linked page's files; body and date come from the row text, and the title is the link text or else the row text's first 100 characters |
| TWeb.RowDocs | watchdog/connectors/tweb.py:101-103 | a row with fewer than two cells yields nothing |
| TWeb.RowLinkDocsFrom | watchdog/connectors/tweb.py:106-136 | every document of a row comes from one of its qualifying links |
| TWeb.TableDocsFrom | watchdog/connectors/tweb.py:99-136 | every table document comes from a qualifying link of a row with at least two cells |
| TWeb.StandaloneDoc | watchdog/connectors/tweb.py:139-161 | a stand-alone link gives a document exactly when its href holds both "fileshow" and "docid"; the document is its own single file, titled by the link text or "Document" |
| TWeb.Standalone | watchdog/connectors/tweb.py:138-163 | the stand-alone pass only appends to the documents collected so far |
| TWeb.StandaloneAddsNewUrls | watchdog/connectors/tweb.py:146-148 | no document the stand-alone pass adds repeats the URL of an earlier one, whether from the tables or from the pass itself |
| TWeb.StandaloneFrom | watchdog/connectors/tweb.py:139-161 | every document the pass adds comes from a qualifying stand-alone link |
| TWeb.StandaloneKeepsUrl | watchdog/connectors/tweb.py:143-161 | a URL already among the documents is still there after the stand-alone pass |
| TWeb.StandaloneKeepsEarlier | watchdog/connectors/tweb.py:143-161 | a URL present after a prefix of the links stays present after the next link |
| TWeb.StandaloneAddsLast | watchdog/connectors/tweb.py:146-161 | after the pass, the URL of the last link's document is present, appended unless it was already there |
| TWeb.StandaloneKeepsFrom | watchdog/connectors/tweb.py:143-161 | a URL present after a prefix of the links stays present after all of them |
| TWeb.StandaloneCovers | watchdog/connectors/tweb.py:143-161 | every qualifying stand-alone link has its document's URL among the pass's result |
| TWeb.HtmlDocs | watchdog/connectors/tweb.py:84-163 | `_parse_html` returns the table documents first, followed by the stand-alone ones |
| TWeb.HtmlDocsCover | watchdog/connectors/tweb.py:84-163 | every qualifying `fileshow` and `docid` link of the page has its URL among the documents `_parse_html` returns |
| TWeb.ParseRowLink | watchdog/connectors/tweb.py:107-136 | the loop body for one link of a row yields the link's document as specified |
| TWeb.ParseRow | watchdog/connectors/tweb.py:100-136 | the loop over one row yields its documents as specified |
| TWeb.ParseTables | watchdog/connectors/tweb.py:99-136 | the loop over all rows of all tables yields the table documents |
| TWeb.ParseStandalone | watchdog/connectors/tweb.py:139-161 | the stand-alone loop appends exactly the pass's documents |
| TWeb.ParseStandaloneLink | watchdog/connectors/tweb.py:143-161 | one link of the stand-alone loop yields its document exactly as specified |
| TWeb.ParseHtml | watchdog/connectors/tweb.py:84-163 | `_parse_html` runs the table pass and then the stand-alone pass |
| TWeb.PageDocs | watchdog/connectors/tweb.py:51-54 | a page whose fetch fails yields nothing |
| TWeb.PathDocs | watchdog/connectors/tweb.py:47-57 | an empty configured path is skipped; another is read as a listing page |
| TWeb.ConfiguredParts | watchdog/connectors/tweb.py:47-57 | one part per configured path, in insertion order |
| TWeb.ListingParts | watchdog/connectors/tweb.py:61-69 | the seven listing paths with their listing keys, in the order they are tried |
| TWeb.FetchPage | watchdog/connectors/tweb.py:50-54 | one page is fetched and parsed as its specification says |
| TWeb.DiscoverConfigured | watchdog/connectors/tweb.py:45-57 | the configured branch concatenates the documents of all paths, in order |
| TWeb.DiscoverListings | watchdog/connectors/tweb.py:71-80 | the listing loop returns the documents of the first listing that has any |
| TWeb.FetchListing | watchdog/connectors/tweb.py:71-75 | one listing page is fetched and parsed into its part of the listings |
| TWeb.Discover | watchdog/connectors/tweb.py:38-82 | `discover()` returns the configured documents when paths are configured, the first non-empty listing otherwise |
| TWeb.FallbackFirstListing | watchdog/connectors/tweb.py:71-80 | without paths, the result is exactly the first listing that yields documents |
| TWeb.AlueBodiesUnreachable | watchdog/connectors/tweb.py:183-203 | "Aluehallitus" and "Aluevaltuusto" are never returned, because the keys "hallitus" and "valtuusto" come first and are contained in theirs |
| TWeb.ExampleSlashDate | watchdog/connectors/tweb.py:207-222 | "1/3/2025" holds neither a dot nor a dash, and the slash pattern reads it as 1 March 2025 |
| MunicipalWebsite.DetermineDocType | watchdog/connectors/municipal_website.py:126-150 | the result is always one of the four document types, and each of the four known path keys decides its type regardless of the text |
| MunicipalWebsite.TextDecidesUnknownKey | watchdog/connectors/municipal_website.py:139-150 | for any other path key, "esityslista" in the lower-cased text gives an agenda, then "pöytäkirja" minutes; decision and announcement are given exactly when their keywords appear and no earlier keyword does |
| MunicipalWebsite.WebsiteDate | watchdog/connectors/municipal_website.py:174-192 | a date found is a valid calendar date at midnight |
| MunicipalWebsite.WebsiteDateIsFinnishThenIso | watchdog/connectors/municipal_website.py:174-192 | this connector's date extraction is the shared one over the D.M.YYYY pattern and then the ISO pattern, with an invalid D.M.YYYY match falling through to ISO |
| MunicipalWebsite.LinkDoc | watchdog/connectors/municipal_website.py:94-122 | a link gives a document exactly when it matches the PDF pattern (`\.pdf`, case-insensitive, by default); the document is its own single file at the joined URL, with body, date and type taken from the nearest block ancestor's text (else the link text), the link text (or the context's first 100 characters) as title, and no publication time |
| MunicipalWebsite.PageDocs | watchdog/connectors/municipal_website.py:94-124 | a page yields at most one document per link |
| MunicipalWebsite.PageDocsFrom | watchdog/connectors/municipal_website.py:94-124 | every document of a page comes from one of its links that matches the PDF pattern |
| MunicipalWebsite.AllPdfLinksKept | watchdog/connectors/municipal_website.py:94-124 | when every link matches, each link gives a document, so nothing is dropped |
| MunicipalWebsite.ParseLink | watchdog/connectors/municipal_website.py:95-122 | the loop body for one link computes that link's document |
| MunicipalWebsite.ParseLinks | watchdog/connectors/municipal_website.py:94-124 | the link loop yields the page's documents in link order |
| MunicipalWebsite.ParsePage | watchdog/connectors/municipal_website.py:86-124 | `_parse_page` returns the documents of all anchors of the parsed page |
| MunicipalWebsite.EffectivePaths | watchdog/connectors/municipal_website.py:62-68 | configured paths are walked as given; without them at most one path remains |
| MunicipalWebsite.OnlyLastListingPath | watchdog/connectors/municipal_website.py:66-68 | without `paths`, the dictionary comprehension keeps only the last listing path under "default"; the default listing is the site root, and an empty listing walks nothing |
| MunicipalWebsite.PathDocs | watchdog/connectors/municipal_website.py:71-82 | an empty path and a fetch that raises both contribute nothing |
| MunicipalWebsite.Parts | watchdog/connectors/municipal_website.py:71-82 | one part per walked path, in order |
| MunicipalWebsite.FetchListing | watchdog/connectors/municipal_website.py:75-82 | one path's listing is fetched and parsed as its specification says |
| MunicipalWebsite.Discover | watchdog/connectors/municipal_website.py:58-84 | `discover()` concatenates the documents of the walked paths, in order |
| MunicipalWebsite.DiscoveredArePdfLinks | watchdog/connectors/municipal_website.py:58-124 | every discovered document is its own single file and was found on one of the walked pages |
| MunicipalWebsite.CouncilAndBoard | watchdog/connectors/municipal_website.py:152-172 | a text naming "valtuusto" is attributed to Kunnanvaltuusto, and one naming "hallitus" but not "valtuusto" to Kunnanhallitus |
| ExtractStage.Step | watchdog/pipeline/extract.py:60-97 | one file's step changes only its text status and text, along one allowed transition (missing copy or exception fails; pending goes to extracted or OCR-queued; OCR-queued goes to OCR-done), and text is stored only with a finished status |
| ExtractStage.QueuedForOcrExactly | watchdog/pipeline/extract.py:70-78 | a present pending file is queued for OCR exactly when extraction succeeds with under 100 stripped characters and the file is over 10000 bytes |
| ExtractStage.SmallFileNeverQueued | watchdog/pipeline/extract.py:74 | a file with no recorded size, or at most 10000 bytes, is never queued for OCR |
| ExtractStage.ExtractedKeepsText | watchdog/pipeline/extract.py:70-81 | a present pending file with enough text, or too small to be a scan, stores the extracted text as extracted |
| ExtractStage.OcrOutcome | watchdog/pipeline/extract.py:85-93 | a queued file takes the OCR text as OCR-done, or fails when OCR raises |
| ExtractStage.ExtractAll | watchdog/pipeline/extract.py:60-97 | the loop keeps the number of files |
| ExtractStage.ExtractAllFile | watchdog/pipeline/extract.py:60-97 | each listed file is stepped once, from its state before the loop, and every other file is untouched |
| ExtractStage.AfterExtract | watchdog/pipeline/extract.py:40-100 | a run changes the files table only, and keeps its size |
| ExtractStage.FileAfterExtract | watchdog/pipeline/extract.py:49-97 | a file with a stored copy and pending or OCR-queued text takes exactly one step; every other file is unchanged |
| ExtractStage.OneStepPerRun | watchdog/pipeline/extract.py:70-93 | a file queued for OCR in a run is not OCR'd in the same run, and OCR text is produced only from a file that was queued before the run |
| ExtractStage.StoragePathKept | watchdog/pipeline/extract.py:49-52 | the storage path never changes, and a file without a stored copy is not touched |
| ExtractStage.ExtractFile | watchdog/pipeline/extract.py:61-97 | the loop body replaces the one stored row by its step and changes nothing else |
| ExtractStage.ExtractFiles | watchdog/pipeline/extract.py:60-99 | the loop leaves the database with the files table advanced over the listed ids |
| ExtractStage.Run | watchdog/pipeline/extract.py:40-100 | `run()` leaves the database that the specification of a run describes, including the early return on an empty work set |
| FetchStage.StoragePath | watchdog/pipeline/fetch.py:59-60 | the stored path is `<source_id>/<file_id>.pdf`, so it is non-empty and ends in ".pdf" |
| FetchStage.StoragePathsDistinct | watchdog/pipeline/fetch.py:59-60 | two files of the same source never share a storage path |
| FetchStage.FetchedFile | watchdog/pipeline/fetch.py:62-78 | a successful download records the path, the size and the fetch time and keeps the text status; a failed one marks the file failed; the file's document, URL and text never change |
| FetchStage.FetchedFileOutcome | watchdog/pipeline/fetch.py:62-78 | the whole new file row after a download, in both cases; a failed download leaves the file without a storage path |
| FetchStage.FetchOne | watchdog/pipeline/fetch.py:55-79 | one download keeps both tables' sizes and every file's reference to an existing document |
| FetchStage.FetchAll | watchdog/pipeline/fetch.py:55-79 | the download loop keeps both tables' sizes and the file-to-document references |
| FetchStage.MarkOne | watchdog/pipeline/fetch.py:82-86 | the status loop's iteration leaves the files as they are |
| FetchStage.MarkAll | watchdog/pipeline/fetch.py:82-86 | the status loop leaves the files as they are |
| FetchStage.AfterFetch | watchdog/pipeline/fetch.py:35-89 | a run writes only the documents and files tables |
| FetchStage.FetchAllDocument | watchdog/pipeline/fetch.py:71-73 | the download loop changes nothing of a document but its content hash |
| FetchStage.FetchOneFile | watchdog/pipeline/fetch.py:55-79 | one download changes its own file only |
| FetchStage.FetchAllFile | watchdog/pipeline/fetch.py:55-79 | each file is changed only by its own download, from its state before the loop |
| FetchStage.FetchAllFileLast | watchdog/pipeline/fetch.py:55-79 | in an increasing id list, a file's own download is the first to touch it |
| FetchStage.FetchAllHash | watchdog/pipeline/fetch.py:71-73 | a content hash already set survives the loop; a hash that changes comes from a successful download of one of the document's files |
| FetchStage.FetchAllNoHash | watchdog/pipeline/fetch.py:71-73 | a document without a hash keeps none when no listed download of its files produces a hash |
| FetchStage.FetchAllFirstHash | watchdog/pipeline/fetch.py:71-73 | a document without a hash takes the hash of the first listed download of its files that produces one |
| FetchStage.FetchAllFileDocument | watchdog/pipeline/fetch.py:55-79 | the download loop never moves a file to another document |
| FetchStage.MarkAllStatus | watchdog/pipeline/fetch.py:82-86 | the status loop moves a "new" document to "fetched" exactly when one of the listed files belongs to it and has a storage path; nothing else of the document changes |
| FetchStage.StoredIffDownloaded | watchdog/pipeline/fetch.py:62-86 | after the download loop, a listed file of a document has a storage path exactly when one of its downloads succeeded |
| FetchStage.DownloadedForExists | watchdog/pipeline/fetch.py:82-86 | the recursive "some listed file was downloaded" is the existential it names |
| FetchStage.AfterFetchFiles | watchdog/pipeline/fetch.py:81-86 | the files after the run are those the download loop left |
| FetchStage.FileAfter | watchdog/pipeline/fetch.py:44-79 | a file outside the work set ends the run untouched |
| FetchStage.FetchAllWorkSet | watchdog/pipeline/fetch.py:44-79 | over the work set, the download loop leaves every file as `FileAfter` says |
| FetchStage.AfterFetchFile | watchdog/pipeline/fetch.py:35-89 | every file ends the run as `FileAfter` says |
| FetchStage.UnselectedUntouched | watchdog/pipeline/fetch.py:44-47 | a file that already has a storage path, or whose text is not pending, is not touched |
| FetchStage.SelectedFileOutcome | watchdog/pipeline/fetch.py:55-79 | a file without a storage path and with pending text ends the run as its own download left it |
| FetchStage.WorkSetDrained | watchdog/pipeline/fetch.py:44-79 | after a run no file is left without a storage path and with pending text, so a second run has nothing to fetch |
| FetchStage.HashNeverOverwritten | watchdog/pipeline/fetch.py:71-73 | a document's existing content hash is kept across the run, and a new one is the hash of a successful download of one of its selected files |
| FetchStage.FirstInWorkSet | watchdog/pipeline/fetch.py:44-47 | a selected file's id is in the work set, after the ids of every earlier selected file |
| FetchStage.HashFromFirstDownload | watchdog/pipeline/fetch.py:71-73 | a document without a hash ends the run with the hash of its first selected file, in work-set order, whose download produces one |
| FetchStage.WorkSetOf | watchdog/pipeline/fetch.py:44-47 | the query's ids are increasing and are exactly those of the selected files |
| FetchStage.HashFromSelected | watchdog/pipeline/fetch.py:71-73 | a hash a listed download produced comes from a selected file of the document |
| FetchStage.StatusAfterFetch | watchdog/pipeline/fetch.py:82-86 | a document becomes "fetched" exactly when it was "new" and one of its selected files was downloaded; every other status is unchanged |
| FetchStage.SelectedDownloads | watchdog/pipeline/fetch.py:44-86 | a download among the listed ids is the same as a download of a selected file, over file indices |
| FetchStage.PositionSelected | watchdog/pipeline/fetch.py:44-47 | every id of the work set is that of a selected file |
| FetchStage.SelectedPosition | watchdog/pipeline/fetch.py:44-47 | every selected file's id is in the work set |
| FetchStage.WithRows | watchdog/pipeline/fetch.py:88 | committing the two tables replaces exactly those tables |
| FetchStage.FetchFile | watchdog/pipeline/fetch.py:56-79 | one iteration of the download loop updates the stored tables as `FetchOne` says |
| FetchStage.FetchFiles | watchdog/pipeline/fetch.py:55-79 | the download loop updates the stored tables as `FetchAll` says |
| FetchStage.MarkFile | watchdog/pipeline/fetch.py:83-86 | one iteration of the status loop updates the stored tables as `MarkOne` says |
| FetchStage.MarkFiles | watchdog/pipeline/fetch.py:82-86 | the status loop updates the stored tables as `MarkAll` says |
| FetchStage.Run | watchdog/pipeline/fetch.py:35-89 | `run()` leaves the database that the specification of a run describes, including the early return on an empty work set |
| Triage.TruncateText | watchdog/pipeline/triage.py:78-82 | text of at most `max_chars` characters is sent unchanged; longer text keeps its first `max_chars` characters and ends with the truncation marker, so the result is never longer than the limit plus the marker |
| Triage.TruncateKeepsStart | watchdog/pipeline/triage.py:78-82 | the model is always shown the start of the text: all of it, or its first `max_chars` characters |
| Triage.RatesFor | watchdog/pipeline/triage.py:88-92 | every model gets positive rates, and every model but gpt-4o gets the gpt-4o-mini rates |
| Triage.EstimateCost | watchdog/pipeline/triage.py:85-93 | the cost is never negative, and it is zero exactly when no tokens were used |
| Triage.UnknownModelPricedAsMini | watchdog/pipeline/triage.py:92 | a model missing from the rate table is priced as gpt-4o-mini |
| Triage.CostMonotone | watchdog/pipeline/triage.py:85-93 | using more prompt or completion tokens never costs less |
| Triage.Classify | watchdog/pipeline/triage.py:178-198 | a reply is a signal exactly when it is dominated with a numeric score of at least 0.6; otherwise it is a maybe exactly when its score, with 0 for an absent score, is at least 0.4; a score that cannot be compared gives no class, because the comparison raises |
| Triage.DocTexts | watchdog/pipeline/triage.py:160-163 | the parts joined into the document's text are all non-empty |
| Triage.CombinedTextNonEmpty | watchdog/pipeline/triage.py:160-165 | a document has text to triage exactly when one of its files is extracted or OCR'd and has non-empty text |
| Triage.DocTextsNonEmpty | watchdog/pipeline/triage.py:160-163 | there is at least one part exactly when one of the document's files is extracted or OCR'd and has non-empty text |
| Triage.Ready | watchdog/pipeline/triage.py:153-165 | every work item is a fetched document with its combined, non-empty text, and the items come in increasing id order |
| Triage.ReadyComplete | watchdog/pipeline/triage.py:153-165 | every fetched document with non-empty text is in the work list |
| Triage.TriageUsage | watchdog/pipeline/triage.py:122-134 | each answered call is metered as one triage row for the document, with the model gpt-4o-mini and that model's estimated cost |
| Triage.TriageOne | watchdog/pipeline/triage.py:175-202 | one iteration changes only the status of its own document, to "processed" when the reply parses and its score compares, and to "error" otherwise |
| Triage.TriageAll | watchdog/pipeline/triage.py:174-202 | the loop keeps the number of documents |
| Triage.AfterTriage | watchdog/pipeline/triage.py:140-209 | a run writes only the documents and usage tables, and without an API key it changes nothing and returns no candidates |
| Triage.TriageAllKeeps | watchdog/pipeline/triage.py:183-202 | triage changes nothing of a document but its status |
| Triage.TriageAllUntouched | watchdog/pipeline/triage.py:174-202 | a document outside the work list is not touched |
| Triage.TriageAllStatus | watchdog/pipeline/triage.py:174-202 | each document is triaged once, and its status follows the reply to its own text |
| Triage.WorkIncreasing | watchdog/pipeline/triage.py:153-165 | in the work list, every earlier item's id is below the last one's |
| Triage.TriageAllUsage | watchdog/pipeline/triage.py:122-134 | the usage table only grows, by exactly one triage row for gpt-4o-mini per answered call; a call that raises adds none |
| Triage.TriageAllCandidates | watchdog/pipeline/triage.py:173-193 | the candidates are exactly the signals, in work order |
| Triage.Signals | watchdog/pipeline/triage.py:186-193 | every candidate has a score of at least 0.6 and is a work item's document with the very text it was triaged on |
| Triage.TriageNeverScores | watchdog/pipeline/triage.py:182-183 | triage writes only the status: the stored triage score, categories and reason stay as they were |
| Triage.StatusAfterTriage | watchdog/pipeline/triage.py:151-202 | with an API key, a fetched document with text takes the status of the reply to its truncated text; a document without text, or not fetched, is left as it was |
| Triage.TriagedStatus | watchdog/pipeline/triage.py:174-202 | a document in the work list takes the status of the reply to its own text |
| Triage.UntriagedKept | watchdog/pipeline/triage.py:153-165 | a document outside the work list is left as it was |
| Triage.SelectReady | watchdog/pipeline/triage.py:158-165 | the selection loop builds the work list |
| Triage.TriageDocument | watchdog/pipeline/triage.py:96-137 | one call and its verdict update the stored tables and the candidates as `TriageOne` says |
| Triage.TriageDocuments | watchdog/pipeline/triage.py:173-204 | the triage loop updates the stored tables and returns the candidates as `TriageAll` says |
| Triage.Run | watchdog/pipeline/triage.py:140-209 | `run()` leaves the database and returns the candidates that the specification of a run describes, including the two early returns |
| SqlLike.LikeWithoutPercent | watchdog/pipeline/case_builder.py:101-103 | without `%`, `LIKE` compares character by character, `_` matching any character and ASCII letters compared without case |
| SqlLike.LikeAnyRun | watchdog/pipeline/case_builder.py:101-103 | a lone `%` matches every text |
| SqlLike.LikeTrailingPercent | watchdog/pipeline/case_builder.py:101-103 | a `%`-free pattern followed by `%` matches exactly the texts whose first characters match the pattern |
| SqlLike.LikeLeadingPercent | watchdog/pipeline/case_builder.py:101-103 | `%` followed by a pattern matches exactly the texts with a suffix matching the pattern |
| SqlLike.LikeContainsWindow | watchdog/pipeline/case_builder.py:101-103 | for a permit without `%`, `contains` holds exactly when some window of the entities matches it, `_` standing for any character and ASCII letters compared without case |
| SqlLike.ContainsIsLike | watchdog/pipeline/case_builder.py:101-103 | entities holding a `%`-free permit verbatim pass the `contains` test |
| SqlLike.WildcardAndCaseMatch | watchdog/pipeline/case_builder.py:101-103 | "MAL_2025_42" and "mal-2025-42" are not substrings of "MAL-2025-42", yet entities holding it pass the `contains` test for both |
| CaseBuilder.FirstContaining | watchdog/pipeline/case_builder.py:101-105 | the result is the first case from the given position on whose entities pass SQLite's `LIKE '%' \|\| permit \|\| '%'` test, and there is none exactly when no such case exists |
| CaseBuilder.FindMatchingCase | watchdog/pipeline/case_builder.py:93-108 | an empty permit number matches nothing; otherwise the match is the first case whose entities pass the SQL `contains` test for the permit number, and there is no match only when no case passes it |
| CaseBuilder.PermitVariantsMatch | watchdog/pipeline/case_builder.py:99-105 | a reply naming "MAL_2025_42" or "mal-2025-42" matches the first case, whose entities hold "MAL-2025-42" |
| CaseBuilder.NormalConfidence | watchdog/pipeline/case_builder.py:184-186 | "high", "medium" and "low" are kept, and an absent or other value becomes "medium" |
| CaseBuilder.NormalStatus | watchdog/pipeline/case_builder.py:188-190 | "proposed", "approved" and "unknown" are kept, and an absent or other value becomes "unknown" |
| CaseBuilder.Summary | watchdog/pipeline/case_builder.py:195 | an empty debrief gives an empty summary, and a single point gives one "- " line |
| CaseBuilder.NewCase | watchdog/pipeline/case_builder.py:192-202 | the headline is the reply's (or the document title) cut to at most 300 characters, and unchanged when it fits; the primary category is the first triage category or "unknown"; the municipalities are the source's municipality; entities, location and confidence reason come from the reply |
| CaseBuilder.EvidenceRows | watchdog/pipeline/case_builder.py:162-170 | one evidence row per reply item, linked to the case and the document, with no file, the item's page and the verbatim snippet, and the document's URL |
| CaseBuilder.TimelineEvents | watchdog/pipeline/case_builder.py:218-230 | one "timeline" event per item, linked to the case, timed by the item's ISO date when it parses and untimed otherwise, carrying the item's description |
| CaseBuilder.CandidatesUpTo | watchdog/pipeline/case_builder.py:248-268 | every work item is a processed document scored at least 0.6, with no evidence and non-empty text, carrying that text and its stored categories (or "unknown"), in increasing id order |
| CaseBuilder.CandidatesComplete | watchdog/pipeline/case_builder.py:248-268 | every document that meets those conditions is in the work list |
| CaseBuilder.CandidatesKeepPrefix | watchdog/pipeline/case_builder.py:255-268 | looking at one more document keeps the earlier work items |
| CaseBuilder.CandidateAtEnd | watchdog/pipeline/case_builder.py:255-268 | a candidate document is appended when it is looked at |
| CaseBuilder.NoScoreNoCandidates | watchdog/pipeline/case_builder.py:248-251 | when no document has a triage score there is nothing to build |
| CaseBuilder.CaseUsage | watchdog/pipeline/case_builder.py:137-149 | each answered call is metered as one case_builder row for the document, with the model gpt-4o and that model's estimated cost |
| CaseBuilder.BuildOne | watchdog/pipeline/case_builder.py:111-232 | one build writes only the cases, events, evidence and usage tables |
| CaseBuilder.BuildAll | watchdog/pipeline/case_builder.py:276-285 | the build loop writes only those four tables |
| CaseBuilder.AfterBuild | watchdog/pipeline/case_builder.py:235-288 | a run writes only those four tables, and without an API key nothing changes |
| CaseBuilder.MergeIntoMatchingCase | watchdog/pipeline/case_builder.py:155-181 | a reply naming the permit of an existing case merges into the first such case: only its update time changes, no other case changes, the evidence is linked to it, and exactly one "evidence_added" event records the document |
| CaseBuilder.NewCaseCreated | watchdog/pipeline/case_builder.py:183-232 | a reply matching no case appends one new case, at the next id, with its evidence rows and one timeline event per item |
| CaseBuilder.UsageOfReply | watchdog/pipeline/case_builder.py:137-151 | a call that raises changes nothing; an answered call adds exactly one usage row; a reply that is not valid JSON adds only that row |
| CaseBuilder.BuildOneKeepsKeys | watchdog/pipeline/case_builder.py:162-230 | the evidence and events a build writes keep every foreign key valid |
| CaseBuilder.EvidenceKeys | watchdog/pipeline/case_builder.py:162-170 | appended evidence rows for an existing case and document keep the evidence keys valid |
| CaseBuilder.EventKeys | watchdog/pipeline/case_builder.py:173-179 | appended events that name an existing case keep the event keys valid |
| CaseBuilder.BuildAllKeepsDocuments | watchdog/pipeline/case_builder.py:276-285 | the stage never changes documents, files or sources, and only appends evidence |
| CaseBuilder.CandidateAgain | watchdog/pipeline/case_builder.py:248-268 | after a run, a document is a candidate exactly when it was one before and the run gave it no evidence |
| CaseBuilder.NoCasesAfterTriage | watchdog/pipeline/case_builder.py:248-251 | triage never stores a score, so documents that start without one never become candidates after triage |
| CaseBuilder.AddEvidence | watchdog/pipeline/case_builder.py:162-170 | the evidence loop appends exactly the evidence rows of the reply |
| CaseBuilder.AddTimeline | watchdog/pipeline/case_builder.py:218-230 | the timeline loop appends exactly the timeline events of the reply |
| CaseBuilder.BuildCase | watchdog/pipeline/case_builder.py:111-232 | `build_case` updates the stored tables as `BuildOne` says |
| CaseBuilder.MergeCase | watchdog/pipeline/case_builder.py:157-181 | the merge path stamps the case, appends the evidence and one "evidence_added" event, and changes nothing else |
| CaseBuilder.CreateCase | watchdog/pipeline/case_builder.py:192-232 | the new-case path appends the case, its evidence and its timeline, and changes nothing else |
| CaseBuilder.BuildCases | watchdog/pipeline/case_builder.py:276-287 | the build loop updates the stored tables as `BuildAll` says |
| CaseBuilder.SelectCandidates | watchdog/pipeline/case_builder.py:248-268 | the selection loop builds the work list |
| CaseBuilder.Run | watchdog/pipeline/case_builder.py:235-288 | `run()` leaves the database that the specification of a run describes, including the two early returns |
| Seed.InNames | watchdog/seed_lapland_sources.py:276-277 | every entry's municipality is among the entries' names |
| Seed.NotInNames | watchdog/seed_lapland_sources.py:276-277 | a municipality that no entry names is not among the names |
| Seed.LaplandMunicipalities | watchdog/seed_lapland_sources.py:15-264 | the table holds 24 entries, for these municipalities in this order |
| Seed.MunicipalitiesDistinct | watchdog/seed_lapland_sources.py:15-264 | the 24 municipality names are pairwise different |
| Seed.LaplandDistinct | watchdog/seed_lapland_sources.py:15-264 | the table has 24 entries and no two of them name the same municipality |
| Seed.LaplandSupported | watchdog/seed_lapland_sources.py:15-264 | every entry's platform has a connector |
| Seed.LaplandPathKinds | watchdog/seed_lapland_sources.py:15-264 | every path is listed under one of the document kinds meetings, agendas, officer_decisions, announcements or zoning |
| Seed.SeedConfig | watchdog/seed_lapland_sources.py:285-288 | the stored config holds exactly the entry's municipality and its paths in table order |
| Seed.FindMunicipality | watchdog/seed_lapland_sources.py:281-283 | the lookup finds the first row of the municipality, and nothing exactly when no row has it |
| Seed.FindSameNames | watchdog/seed_lapland_sources.py:281-283 | the lookup depends on the rows' municipalities only |
| Seed.FindInPrefix | watchdog/seed_lapland_sources.py:281-283 | a row found among the first rows is the first in the whole table |
| Seed.Upsert | watchdog/seed_lapland_sources.py:276-309 | each entry either updates a row or adds one (never both), and the table grows by the rows added |
| Seed.SeedAll | watchdog/seed_lapland_sources.py:276-309 | every entry is counted once as added or updated, and the table grows by exactly the number added |
| Seed.Seeded | watchdog/seed_lapland_sources.py:267-316 | `seed_sources()` counts 24 entries as added or updated |
| Seed.ReplaceKeepsConfigured | watchdog/seed_lapland_sources.py:290-296 | updating a row keeps every other municipality configured |
| Seed.UpdateConfigures | watchdog/seed_lapland_sources.py:290-296 | updating the row found for an entry configures that entry |
| Seed.UpdateKeepsRows | watchdog/seed_lapland_sources.py:290-296 | an update keeps the rows' municipalities and health columns and touches no other municipality |
| Seed.UpdateAllConfigured | watchdog/seed_lapland_sources.py:290-296 | an update keeps the earlier entries configured and configures the new one |
| Seed.UpdateKeepsInv | watchdog/seed_lapland_sources.py:290-296 | an entry found among the rows that existed before seeding updates that row and the seeding invariant still holds |
| Seed.AddAllConfigured | watchdog/seed_lapland_sources.py:298-309 | appending a row for a municipality that has none keeps the earlier entries configured and configures the new one |
| Seed.AddKeepsInv | watchdog/seed_lapland_sources.py:298-309 | an entry not found among the old rows is appended and the seeding invariant still holds |
| Seed.SeedAllRows | watchdog/seed_lapland_sources.py:276-311 | for entries of distinct municipalities, seeding keeps every row's municipality and health columns, leaves the rows of other municipalities untouched, adds rows only for seeded municipalities, and configures every entry |
| Seed.DistinctSplit | watchdog/seed_lapland_sources.py:276 | the last of distinct entries names a municipality none of the others names |
| Seed.SeedStep | watchdog/seed_lapland_sources.py:276-309 | one more entry keeps the seeding invariant |
| Seed.UpsertConfigured | watchdog/seed_lapland_sources.py:290-296 | an entry that is already configured is a no-op update |
| Seed.SeedConfiguredIsNoop | watchdog/seed_lapland_sources.py:276-309 | a table in which every entry is configured is left as it is, with every entry counted as updated |
| Seed.SeedTwice | watchdog/seed_lapland_sources.py:267-311 | seeding twice with distinct entries is seeding once: the second pass adds nothing and changes nothing |
| Seed.SeedIdempotent | watchdog/seed_lapland_sources.py:267-311 | running the seed script a second time adds nothing, changes nothing and counts all 24 sources as updated |
| Seed.SeededEntry | watchdog/seed_lapland_sources.py:276-311 | after seeding, the first row of each entry's municipality is enabled and carries the entry's platform, URL and config; rows of other municipalities are as they were |
| Seed.ConfiguredRow | watchdog/seed_lapland_sources.py:290-309 | the row that configures an entry is the first row of its municipality |
| Seed.SeededSources | watchdog/seed_lapland_sources.py:267-311 | after seeding, each of the 24 municipalities has an enabled source on a platform with a connector |
| Seed.FindFirst | watchdog/seed_lapland_sources.py:281-283 | the scan finds the row the lookup specifies |
| Seed.SeedAllStep | watchdog/seed_lapland_sources.py:276 | the loop visits the entries in table order |
| Seed.SeedOne | watchdog/seed_lapland_sources.py:276-309 | one pass of the loop updates or adds a row and its count as `Upsert` says, and changes no other table |
| Seed.SeedEntries | watchdog/seed_lapland_sources.py:276-311 | the loop leaves the sources table and the counts that seeding specifies, and changes no other table |
| Seed.SeedSources | watchdog/seed_lapland_sources.py:267-316 | `seed_sources()` leaves the sources table and the counts that seeding the Lapland table specifies |
| Cli.DetectPlatform | watchdog/cli.py:21-36 | the result is one of cloudnc, dynasty, tweb, web and unknown, and an empty URL is unknown |
| Cli.DetectPlatformCases | watchdog/cli.py:25-36 | each platform is detected exactly when its test is the first to pass on the lower-cased URL |
| Cli.KtwebSubsumed | watchdog/cli.py:32 | a URL containing "ktweb" contains "tweb", so the second test of that branch never decides anything |
| Cli.DetectedSupported | watchdog/cli.py:21-36 | of the detected platforms only cloudnc, dynasty and tweb have a connector, so a source detected as "web" or "unknown" is skipped by discovery |
| Cli.CellText | watchdog/cli.py:64-68 | a missing column reads as the empty string |
| Cli.CellsOf | watchdog/cli.py:63-69 | one cell per URL column |
| Cli.CellsOfAt | watchdog/cli.py:63-69 | cell j holds the row's municipality, column j's source type and the stripped text under column j's header |
| Cli.RowCells | watchdog/cli.py:60-69 | a row gives five cells |
| Cli.RowCellAt | watchdog/cli.py:60-69 | cell j of a row holds the stripped "Kunta" cell, column j's type and the stripped text under column j's header |
| Cli.AllCells | watchdog/cli.py:59-71 | the loops visit five cells per row |
| Cli.AllCellsAt | watchdog/cli.py:59-71 | cell j of row k is visited at position 5k + j |
| Cli.CsvSource | watchdog/cli.py:87-93 | a new row has the cell's municipality and URL, the detected platform, is enabled, and its config records only the source type |
| Cli.CsvTry | watchdog/cli.py:71-96 | an empty URL is passed over; every other URL is counted once as added or skipped; existing rows never change and the table grows by the rows added |
| Cli.SeedCells | watchdog/cli.py:59-96 | every non-empty URL is counted once as added or skipped, and the table grows by exactly the number added |
| Cli.SeedCellsKeepsRows | watchdog/cli.py:59-96 | rows already in the table are never changed |
| Cli.SeedCellsAddsAbsent | watchdog/cli.py:77-96 | as written, every added row's municipality and URL were absent from the table as it was before the run |
| Cli.SeedCsvAddsAbsent | watchdog/cli.py:39-98 | as written, a run adds only rows whose municipality and URL the table lacked before it |
| Cli.HasSourcePrefix | watchdog/cli.py:78-81 | a source in a prefix of the table is one in the whole table |
| Cli.SeedCellsCovers | watchdog/cli.py:71-96 | after a run, every non-empty URL of the cells has a source row |
| Cli.SeedCellsAllPresent | watchdog/cli.py:77-85 | when every non-empty URL already has a source, a run adds nothing and only counts skips |
| Cli.SeedCsvCovers | watchdog/cli.py:39-98 | after a run, every non-empty URL of the spreadsheet has a source with the row's municipality |
| Cli.SeedCsvRerun | watchdog/cli.py:39-98 | seeding from the same spreadsheet again adds nothing and skips every non-empty URL |
| Cli.TwoNewCells | watchdog/cli.py:77-95 | as written, two leading cells with the same new municipality and URL are both appended, because neither lookup sees the other's unflushed row |
| Cli.DuplicateWithinRun | watchdog/cli.py:63-95 | as written, a row whose Esityslistat and Pöytäkirjat cells hold the same new URL inserts that municipality and URL twice |
| Cli.SeedCsvOne | watchdog/cli.py:59-71 | a one-row spreadsheet visits exactly that row's cells |
| Cli.SeedCellsSplit | watchdog/cli.py:59-71 | running over two lists of cells runs over the second from where the first stopped |
| Cli.SeedRowsStep | watchdog/cli.py:59-71 | the loop visits the rows in order, each row's cells in column order |
| Cli.SeedCellsFlushedNoDuplicates | watchdog/cli.py:77-95 | when each lookup also sees the rows added so far, seeding never introduces a duplicate municipality and URL |
| Cli.AppendNewKeepsNoDuplicates | watchdog/cli.py:87-94 | appending a row whose municipality and URL are new keeps the table free of duplicates |
| Cli.SeedCsvFlushedNoDuplicates | watchdog/cli.py:39-98 | the seeding as intended keeps a duplicate-free table duplicate-free |
| Cli.AddSource | watchdog/cli.py:122-144 | a platform outside cloudnc, dynasty, tweb and pdf is refused by the argument parser; an existing municipality and platform pair is reported and nothing changes; otherwise exactly one enabled source without config is appended |
| Cli.AddSourceIdempotent | watchdog/cli.py:122-144 | after `add-source` the pair has a source, and adding it again, with any URL, changes nothing |
| Cli.PdfSourceUnsupported | watchdog/cli.py:237 | "pdf" is accepted but has no connector, so discovery skips such a source |
| Cli.HealthStatus | watchdog/cli.py:117 | the status reads "✓ OK" exactly when the source has not failed since its last success |
| Cli.HealthStatusInjective | watchdog/cli.py:117 | different failure counts give different status texts |
| Cli.HealthLineOf | watchdog/cli.py:116-119 | a line shows the source's municipality, platform and last success, and reads OK exactly when there are no consecutive failures |
| Cli.HealthReport | watchdog/cli.py:103-119 | with no sources there is only the "No sources configured" message; otherwise there is one line per source, in table order |
| Cli.FindSource | watchdog/cli.py:78-81 | the scan finds a row exactly when one has the municipality and URL |
| Cli.TryCell | watchdog/cli.py:71-96 | one cell updates the table and the counts as `CsvTry` says, and no other table changes |
| Cli.SeedRow | watchdog/cli.py:71-96 | the inner loop updates the table and the counts as `SeedCells` says for the row's cells |
| Cli.CmdSeedLapland | watchdog/cli.py:39-100 | `cmd_seed_lapland` leaves the sources table and counts of `SeedCsv`, and a missing spreadsheet changes nothing |
| Cli.CmdAddSource | watchdog/cli.py:122-144 | `cmd_add_source` leaves the outcome and the table that `AddSource` specifies |
| Cli.CmdHealth | watchdog/cli.py:103-119 | `cmd_health` builds the report that `HealthReport` specifies |
| Pipeline.Index | watchdog/cli.py:155-173 | every stage has a place in the fixed run order discover, fetch, extract, triage, build |
| Pipeline.StagesFor | watchdog/cli.py:153-173 | the parser refuses exactly the stage arguments outside discover, fetch, extract, triage, build and all; an accepted argument selects the stages whose test passes, in run order |
| Pipeline.PlanAllUpTo | watchdog/cli.py:153-173 | with "all", each test selects its stage |
| Pipeline.StagesForAll | watchdog/cli.py:153-173 | without `--stage`, or with `--stage all`, every stage runs, in order |
| Pipeline.NamesDistinct | watchdog/cli.py:243 | no two stages share a name, and none is called "all" |
| Pipeline.PlanOneUpTo | watchdog/cli.py:155-173 | with a stage's name, only that stage's test passes |
| Pipeline.StagesForOne | watchdog/cli.py:155-173 | a named stage runs alone |
| Pipeline.AcceptedChoices | watchdog/cli.py:243 | every accepted argument is absent, "all", or the name of a stage |
| Pipeline.SameKeysKeepIntegrity | watchdog/db/models.py:112-146 | a database whose foreign keys agree with an intact one, and whose usage rows name existing documents, is intact |
| Pipeline.DiscoverKeepsIntegrity | watchdog/pipeline/discover.py:135-173 | discovery keeps every foreign key valid and the (source, external id) pairs unique |
| Pipeline.FetchKeepsIntegrity | watchdog/pipeline/fetch.py:35-89 | the fetch stage keeps every foreign key valid and the document pairs unique |
| Pipeline.ExtractKeepsIntegrity | watchdog/pipeline/extract.py:40-100 | the extract stage keeps every foreign key valid and the document pairs unique |
| Pipeline.TriageAllUsageIn | watchdog/pipeline/triage.py:122-134 | every usage row the triage loop appends names a document of the table |
| Pipeline.TriageKeepsIntegrity | watchdog/pipeline/triage.py:140-209 | the triage stage keeps every foreign key valid and the document pairs unique |
| Pipeline.BuildAllKeepsKeys | watchdog/pipeline/case_builder.py:276-285 | the build loop keeps every foreign key valid |
| Pipeline.BuildKeepsIntegrity | watchdog/pipeline/case_builder.py:235-288 | every document's source exists, and the case builder keeps every foreign key valid and the document pairs unique |
| Pipeline.RunStage | watchdog/cli.py:155-173 | each stage's `run()` keeps the database intact |
| Pipeline.RunStages | watchdog/cli.py:155-173 | running stages one after another keeps the database intact |
| Pipeline.RunStagesSnoc | watchdog/cli.py:155-173 | running one more stage runs it on what the earlier stages left |
| Pipeline.PlanStep | watchdog/cli.py:155-173 | each test runs its stage on what the earlier tests left, or leaves the database as it is |
| Pipeline.RunStep | watchdog/cli.py:157-173 | one `<stage>.run()` call leaves the database that its stage's specification describes |
| Pipeline.RunIf | watchdog/cli.py:155-173 | one `if stage in ("all", name)` test runs its stage exactly when it passes |
| Pipeline.RunSelected | watchdog/cli.py:155-173 | the five tests run the selected stages in their fixed order |
| Pipeline.RunPipeline | watchdog/cli.py:147-175 | `run-pipeline` refuses exactly the arguments the parser rejects, and then changes nothing; otherwise it runs the selected stages in order, and the database stays intact |
| App.CompareDigest | watchdog/app/main.py:87 | the comparison succeeds exactly when both strings are ASCII, and reports a match exactly for two equal ASCII strings |
| App.VerifyAdminToken | watchdog/app/main.py:65-90 | with no configured token the answer is 503; with a missing or empty token it is 401; every refusal is one of 503, 401 and 403 |
| App.GrantedExactly | watchdog/app/main.py:65-90 | access is granted exactly to a request whose token equals the configured, non-empty, ASCII token |
| App.WrongTokenRefused | watchdog/app/main.py:86-88 | a wrong token is refused with 403 when both tokens are ASCII, and makes the check raise otherwise |
| App.VerifyAdminTokenAsWritten | watchdog/app/main.py:72-74 | as written, the check with a configured token is the corrected check |
| App.AdminRoutesUnreachable | watchdog/app/main.py:72-74 | with the shipped settings, which have no `admin_token`, every admin request raises before any token is looked at |
| App.BelowIrreflexive | watchdog/app/main.py:115 | no string is below itself in Python's string order |
| App.BelowTransitive | watchdog/app/main.py:115 | Python's string order is transitive |
| App.BelowTotal | watchdog/app/main.py:115 | any two different strings are ordered one way or the other |
| App.Insert | watchdog/app/main.py:115 | inserting a name into an ascending list without repeats keeps it so, and adds exactly that name |
| App.FeedMunicipalities | watchdog/app/main.py:114-115 | the feed's filter list is ascending, names each municipality once, and holds exactly the municipalities of enabled sources |
| App.HeadIsLeast | watchdog/app/main.py:115 | the first name of an ascending list is below every other name in it |
| App.SameElementsBothEmpty | watchdog/app/main.py:115 | lists with the same names are empty together |
| App.SortedUnique | watchdog/app/main.py:115 | two ascending lists without repeats and with the same names are equal, so the list is the one `sorted` returns |
| App.FeedIgnoresOrder | watchdog/app/main.py:114-115 | the filter list depends only on which municipalities the enabled sources carry, not on the order or number of the rows |

## Left out

- Network, HTML, RSS and URL parsing are not modelled. The HTTP client, BeautifulSoup, feedparser, `urljoin` and `urlparse` are inputs, so nothing is proved about them.
- DNS is not modelled: the address `gethostbyname` returns is an input. It only returns IPv4, so the three IPv6 networks in the blocked list can never match.
- Hashing, `json.loads` and `json.dumps` are not modelled. SHA-256 digests are an input function. A language-model reply is given already parsed, or `None` when it is not valid JSON.
- A reply member with a JSON type the code does not expect is not modelled, for example a `null` headline or a string where a list belongs.
- The PDF extractor, OCR and `pdf_path.exists()` are oracles keyed by file id.
- Concurrency is not modelled. `asyncio.gather` runs the sources one after another, in source order, and the rate limiter's lock is dropped because calls are sequential. An exception raised by a whole gathered task is dropped, as the code drops it.
- Floating point is not modelled. Scores, rates, costs and clock times are Dafny `real`, so rounding is ignored.
- Time is an input. `datetime.utcnow()` is a parameter of each stage. `time.monotonic()` and `asyncio.sleep` are an explicit `Clock` object.
- Printed output is left out: progress lines, the summary lines of `seed_sources` and the seed commands, and the health report's formatting. Where the code prints counts, the counts are returned.
- Argument parsing and CSV reading are left out. A command receives its arguments, and the spreadsheet's rows, as values.
- `cmd_init_db`, `cmd_stats`, the scheduler, the FastAPI routes other than the admin check, and the HTML templates are not part of this model. Nor are the user, watch-profile, case-action and delivery tables.
- The timing safety of `secrets.compare_digest` cannot be stated. Only its result, and its `TypeError` on non-ASCII strings, are modelled.
- `.first()` on an unordered query is taken to return the row with the lowest id.
- Transactions are not modelled. Each stage ends with one `session.commit()`; the model applies the stage's changes as it makes them, and a failing commit is left out.
- Pipeline.RunPipeline: requires the database to start intact, which means valid foreign keys and no repeated (source, external id) pair. The command itself demands nothing; without this precondition the model only says which stages run, not that the database stays intact.
- Text.Lower: lowers only A to Z and Ä, Ö, Å, one character for one. Python's `str.lower` lowers every cased character (É, Ü) and can lengthen a string ('İ' becomes "i̇"), so text with other upper-case letters is not lowered as the code lowers it.
- DateExtract.MatchAt: `\d` is read as the ASCII digits 0 to 9. Python's `re` also matches every other Unicode decimal digit there, and `int()` reads them, so a date in full-width digits such as "１２.３.２０２５" is found by the code and not by the model.
- DateExtract.MatchAtComplete: completeness holds for the ASCII-digit reading of `\d` only, for the reason given for DateExtract.MatchAt.
- DateExtract.Search: searches with the ASCII-digit matcher, so it misses the dates in other Unicode digits that `re.search` finds.
- Cli.DetectPlatform: lowers the URL with Text.Lower, so a URL with another upper-case letter can be classified differently. "https://x.fİ" is "web" in the code, because `str.lower` turns "fİ" into "fi̇", which contains ".fi", and "unknown" in the model.

## Findings

| source | as written | input that shows it | evidently intended | confidence | as-written member | corrected member |
|---|---|---|---|---|---|---|
| watchdog/cli.py:63-95 | `cmd_seed_lapland` looks each (municipality, URL) up in a session that never flushes, so a URL added earlier in the same run is not seen | a spreadsheet row for a new municipality whose Esityslistat and Pöytäkirjat cells hold the same URL | each (municipality, URL) is added once | not executed | Cli.DuplicateWithinRun | Cli.SeedCsvFlushedNoDuplicates |
| watchdog/app/main.py:72-74 | `verify_admin_token` reads `settings.admin_token`, which the settings class does not declare, so the attribute access raises | any request to an admin route, with or without a token | the 503, 401 and 403 chain, and access for the configured token | not executed | App.AdminRoutesUnreachable | App.GrantedExactly |
