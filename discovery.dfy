/** The discovery stage: run each enabled source's connector, insert the
    documents not seen before with one file row per file URL, and keep the
    source's health counters. */
module Discovery {
  import opened Wrappers
  import opened Text
  import opened Calendar
  import opened Connector
  import opened Models
  import opened Database
  import CloudNC
  import Dynasty
  import TWeb
  import MunicipalWebsite

  // ---------------------------------------------------------- connectors

  datatype ConnectorKind =
    | CloudNCConnector
    | DynastyConnector
    | TWebConnector
    | MunicipalWebsiteConnector

  /** The key of `connector_map` under which a connector is registered. */
  function PlatformKey(k: ConnectorKind): string {
    match k
    case CloudNCConnector => "cloudnc"
    case DynastyConnector => "dynasty"
    case TWebConnector => "tweb"
    case MunicipalWebsiteConnector => "municipal_website"
  }

  /** The platforms `connector_map` knows. */
  predicate Supported(platform: string) {
    platform in {"cloudnc", "dynasty", "tweb", "municipal_website"}
  }

  /** `get_connector(source)`: `None` for an unsupported platform. */
  function GetConnector(platform: string): (r: Option<ConnectorKind>)
    ensures r.Some? <==> Supported(platform)
    ensures r.Some? ==> PlatformKey(r.value) == platform
  {
    if platform == "cloudnc" then Some(CloudNCConnector)
    else if platform == "dynasty" then Some(DynastyConnector)
    else if platform == "tweb" then Some(TWebConnector)
    else if platform == "municipal_website" then Some(MunicipalWebsiteConnector)
    else None
  }

  /** Each connector is found under its own key, and the key is the
      platform name the connector writes into its documents. */
  lemma ConnectorKeys(k: ConnectorKind)
    ensures GetConnector(PlatformKey(k)) == Some(k)
    ensures PlatformKey(k) == match k
      case CloudNCConnector => CloudNC.Platform
      case DynastyConnector => Dynasty.Platform
      case TWebConnector => TWeb.Platform
      case MunicipalWebsiteConnector => MunicipalWebsite.Platform
  {
  }

  /** `await connector.discover()` when it returns. */
  function RunConnector(k: ConnectorKind, env: Env, src: Connector.Source): seq<DocumentRef> {
    match k
    case CloudNCConnector => CloudNC.Discovered(env, src)
    case DynastyConnector => Dynasty.Discovered(env, src)
    case TWebConnector => TWeb.Discovered(env, src)
    case MunicipalWebsiteConnector => MunicipalWebsite.Discovered(env, src)
  }

  /** What `discover_from_source` returns: `(source_id, refs, error)`. */
  datatype Outcome = Outcome(sourceId: nat, refs: seq<DocumentRef>, error: Option<string>)

  /** `discover_from_source(source)`; `raised` is the message of the
      exception the connector raises (`str(e)`), if it raises. */
  function DiscoverFromSource(env: Env, id: nat, source: SourceRow, raised: Option<string>): (r: Outcome)
    ensures r.sourceId == id
    ensures r.error.None? <==> Supported(source.platform) && raised.None?
    ensures r.error.Some? ==> r.refs == []
    ensures !Supported(source.platform) ==> r.error == Some("Unsupported platform: " + source.platform)
    ensures Supported(source.platform) && raised.Some? ==> r.error == raised
  {
    match GetConnector(source.platform)
    case None => Outcome(id, [], Some("Unsupported platform: " + source.platform))
    case Some(k) =>
      if raised.Some? then Outcome(id, [], raised)
      else Outcome(id, RunConnector(k, env, Connector.Source(source.baseUrl, ConnectorConfig(source))), None)
  }

  // -------------------------------------------------------------- health

  /** The health update of `save_discovered_documents`. */
  function Health(s: SourceRow, error: Option<string>, now: DateTime): (r: SourceRow)
    ensures r.municipality == s.municipality && r.platform == s.platform && r.baseUrl == s.baseUrl
    ensures r.enabled == s.enabled && r.config == s.config
    ensures Truthy(error) ==>
              r.consecutiveFailures == s.consecutiveFailures + 1 && r.lastError == error
              && r.lastSuccessAt == s.lastSuccessAt
    ensures !Truthy(error) ==> r.consecutiveFailures == 0 && r.lastError == None && r.lastSuccessAt == Some(now)
  {
    if Truthy(error) then s.(consecutiveFailures := s.consecutiveFailures + 1, lastError := error)
    else s.(lastSuccessAt := Some(now), consecutiveFailures := 0, lastError := None)
  }

  /** A source's health after several runs ending at `now`. */
  function HealthAfter(s: SourceRow, errors: seq<Option<string>>, now: DateTime): SourceRow
    decreases |errors|
  {
    if errors == [] then s else Health(HealthAfter(s, errors[..|errors| - 1], now), errors[|errors| - 1], now)
  }

  /** The number of failed runs since the last successful one. */
  function TrailingFailures(errors: seq<Option<string>>): (n: nat)
    ensures n <= |errors|
  {
    if errors == [] || !Truthy(errors[|errors| - 1]) then 0
    else TrailingFailures(errors[..|errors| - 1]) + 1
  }

  /** `consecutive_failures` counts the failed runs since the last success
      (on top of the old count only when no run succeeded), and
      `last_error` is the error of the last run if it failed. */
  lemma {:induction false} FailuresCountTrailing(s: SourceRow, errors: seq<Option<string>>, now: DateTime)
    ensures var r := HealthAfter(s, errors, now);
            r.consecutiveFailures
              == TrailingFailures(errors) + (if TrailingFailures(errors) == |errors| then s.consecutiveFailures else 0)
    ensures errors != [] ==>
              HealthAfter(s, errors, now).lastError
                == if Truthy(errors[|errors| - 1]) then errors[|errors| - 1] else None
    decreases |errors|
  {
    if errors != [] {
      FailuresCountTrailing(s, errors[..|errors| - 1], now);
    }
  }

  /** A source has a last error exactly when it has failures: true of a
      new source and kept by every run. */
  predicate HealthConsistent(s: SourceRow) {
    s.consecutiveFailures == 0 <==> s.lastError.None?
  }

  lemma HealthKeepsConsistent(s: SourceRow, error: Option<string>, now: DateTime)
    requires HealthConsistent(s)
    ensures HealthConsistent(Health(s, error, now))
  {
  }

  /** An exception whose message is empty is recorded as a success. */
  lemma EmptyMessageCountsAsSuccess(env: Env, id: nat, source: SourceRow, now: DateTime)
    requires Supported(source.platform)
    ensures var o := DiscoverFromSource(env, id, source, Some(""));
            o.error == Some("") && Health(source, o.error, now).consecutiveFailures == 0
  {
  }

  // ---------------------------------------------------------- documents

  /** A document with this `(source_id, external_id)` exists. */
  predicate HasDocument(docs: seq<DocumentRow>, sourceId: nat, externalId: string) {
    exists i :: 0 <= i < |docs| && docs[i].sourceId == sourceId && docs[i].externalId == externalId
  }

  /** No two documents share `(source_id, external_id)`; the database index
      on the pair does not enforce it. */
  predicate NoDuplicatePairs(docs: seq<DocumentRow>) {
    forall i, j :: 0 <= i < j < |docs| ==>
      docs[i].sourceId != docs[j].sourceId || docs[i].externalId != docs[j].externalId
  }

  /** Two documents with the same pair are allowed by the schema. */
  lemma DuplicatesRepresentable(d: DocumentRow)
    ensures !NoDuplicatePairs([d, d])
  {
    assert [d, d][0] == [d, d][1];
  }

  /** One `File(document_id=..., url=..., file_type="pdf",
      text_status="pending")` per file URL. */
  function NewFiles(documentId: nat, urls: seq<string>): (r: seq<FileRow>)
    ensures |r| == |urls|
    ensures forall k :: 0 <= k < |r| ==> r[k] == NewFile(documentId, urls[k])
  {
    if urls == [] then [] else NewFiles(documentId, urls[..|urls| - 1]) + [NewFile(documentId, urls[|urls| - 1])]
  }

  /** The document and file tables, and `new_count`. */
  datatype Tables = Tables(documents: seq<DocumentRow>, files: seq<FileRow>, newCount: nat)

  /** One iteration of the reference loop: skip a known pair, else add the
      document (its id is the next row number) and its files. */
  function SaveRef(sourceId: nat, t: Tables, ref: DocumentRef): Tables {
    if HasDocument(t.documents, sourceId, ref.externalId) then t
    else
      Tables(t.documents + [NewDocument(sourceId, ref)],
             t.files + NewFiles(|t.documents| + 1, ref.fileUrls),
             t.newCount + 1)
  }

  /** The reference loop of `save_discovered_documents`. */
  function SaveRefs(sourceId: nat, t: Tables, refs: seq<DocumentRef>): Tables
    decreases |refs|
  {
    if refs == [] then t else SaveRef(sourceId, SaveRefs(sourceId, t, refs[..|refs| - 1]), refs[|refs| - 1])
  }

  /** Rows are only appended, and `new_count` counts the added documents. */
  lemma {:induction false} SaveRefsAppends(sourceId: nat, t: Tables, refs: seq<DocumentRef>)
    ensures var r := SaveRefs(sourceId, t, refs);
            |t.documents| <= |r.documents| && r.documents[..|t.documents|] == t.documents
            && |t.files| <= |r.files| && r.files[..|t.files|] == t.files
            && r.newCount == t.newCount + (|r.documents| - |t.documents|)
    decreases |refs|
  {
    if refs != [] {
      var p := SaveRefs(sourceId, t, refs[..|refs| - 1]);
      SaveRefsAppends(sourceId, t, refs[..|refs| - 1]);
      var r := SaveRef(sourceId, p, refs[|refs| - 1]);
      assert r.documents[..|p.documents|] == p.documents;
      assert r.files[..|p.files|] == p.files;
      assert r.documents[..|t.documents|] == p.documents[..|t.documents|];
      assert r.files[..|t.files|] == p.files[..|t.files|];
    }
  }

  /** Every added document is "new" and belongs to the source; every added
      file is a pending PDF of an added document. */
  lemma {:induction false} SaveRefsAddsNew(sourceId: nat, t: Tables, refs: seq<DocumentRef>)
    ensures var r := SaveRefs(sourceId, t, refs);
            (forall i :: |t.documents| <= i < |r.documents| ==>
               r.documents[i].status == New && r.documents[i].sourceId == sourceId
               && r.documents[i].contentHash == None)
            && (forall i :: |t.files| <= i < |r.files| ==>
                  r.files[i].textStatus == Pending && r.files[i].fileType == "pdf"
                  && |t.documents| < r.files[i].documentId <= |r.documents|)
    decreases |refs|
  {
    if refs != [] {
      var p := SaveRefs(sourceId, t, refs[..|refs| - 1]);
      SaveRefsAddsNew(sourceId, t, refs[..|refs| - 1]);
      SaveRefsAppends(sourceId, t, refs[..|refs| - 1]);
    }
  }

  /** A pair once present stays present. */
  lemma SaveRefKeepsPair(sourceId: nat, t: Tables, ref: DocumentRef, sid: nat, eid: string)
    requires HasDocument(t.documents, sid, eid)
    ensures HasDocument(SaveRef(sourceId, t, ref).documents, sid, eid)
  {
    var i :| 0 <= i < |t.documents| && t.documents[i].sourceId == sid && t.documents[i].externalId == eid;
    assert SaveRef(sourceId, t, ref).documents[i] == t.documents[i];
  }

  lemma {:induction false} SaveRefsKeepsPair(sourceId: nat, t: Tables, refs: seq<DocumentRef>, sid: nat, eid: string)
    requires HasDocument(t.documents, sid, eid)
    ensures HasDocument(SaveRefs(sourceId, t, refs).documents, sid, eid)
    decreases |refs|
  {
    if refs != [] {
      SaveRefsKeepsPair(sourceId, t, refs[..|refs| - 1], sid, eid);
      SaveRefKeepsPair(sourceId, SaveRefs(sourceId, t, refs[..|refs| - 1]), refs[|refs| - 1], sid, eid);
    }
  }

  /** After saving, every reference's pair is present. */
  lemma {:induction false} SaveRefsCoversAll(sourceId: nat, t: Tables, refs: seq<DocumentRef>, k: nat)
    requires k < |refs|
    ensures HasDocument(SaveRefs(sourceId, t, refs).documents, sourceId, refs[k].externalId)
    decreases |refs|
  {
    var n := |refs| - 1;
    var p := SaveRefs(sourceId, t, refs[..n]);
    if k < n {
      SaveRefsCoversAll(sourceId, t, refs[..n], k);
      assert refs[..n][k] == refs[k];
      SaveRefKeepsPair(sourceId, p, refs[n], sourceId, refs[k].externalId);
    } else if !HasDocument(p.documents, sourceId, refs[n].externalId) {
      var r := SaveRef(sourceId, p, refs[n]);
      assert r.documents[|p.documents|].externalId == refs[n].externalId;
    }
  }

  /** Saving never creates a duplicate pair, also against documents added
      earlier in the same call. */
  lemma {:induction false} SaveRefsKeepsUnique(sourceId: nat, t: Tables, refs: seq<DocumentRef>)
    requires NoDuplicatePairs(t.documents)
    ensures NoDuplicatePairs(SaveRefs(sourceId, t, refs).documents)
    decreases |refs|
  {
    if refs != [] {
      SaveRefsKeepsUnique(sourceId, t, refs[..|refs| - 1]);
      var p := SaveRefs(sourceId, t, refs[..|refs| - 1]);
      var ref := refs[|refs| - 1];
      if !HasDocument(p.documents, sourceId, ref.externalId) {
        var docs := p.documents + [NewDocument(sourceId, ref)];
        forall i, j | 0 <= i < j < |docs|
          ensures docs[i].sourceId != docs[j].sourceId || docs[i].externalId != docs[j].externalId
        {
          if j == |p.documents| && docs[i].sourceId == sourceId && docs[i].externalId == ref.externalId {
            assert false;
          }
        }
      }
    }
  }

  /** When every pair is present nothing is saved. */
  lemma {:induction false} SaveRefsAllPresent(sourceId: nat, t: Tables, refs: seq<DocumentRef>)
    requires forall k :: 0 <= k < |refs| ==> HasDocument(t.documents, sourceId, refs[k].externalId)
    ensures SaveRefs(sourceId, t, refs) == t
    decreases |refs|
  {
    if refs != [] {
      SaveRefsAllPresent(sourceId, t, refs[..|refs| - 1]);
    }
  }

  /** Saving the same references again adds nothing and returns 0. */
  lemma SaveRefsIdempotent(sourceId: nat, t: Tables, refs: seq<DocumentRef>)
    ensures var r := SaveRefs(sourceId, t, refs);
            SaveRefs(sourceId, r.(newCount := 0), refs) == r.(newCount := 0)
  {
    var r := SaveRefs(sourceId, t, refs);
    forall k | 0 <= k < |refs| ensures HasDocument(r.(newCount := 0).documents, sourceId, refs[k].externalId) {
      SaveRefsCoversAll(sourceId, t, refs, k);
    }
    SaveRefsAllPresent(sourceId, r.(newCount := 0), refs);
  }

  /** `session.query(Document).filter_by(source_id=..., external_id=...).first()`,
      seeing the rows added earlier in the call (they were flushed). */
  method FindDocument(docs: seq<DocumentRow>, sourceId: nat, externalId: string) returns (found: bool)
    ensures found <==> HasDocument(docs, sourceId, externalId)
  {
    var i := 0;
    while i < |docs|
      invariant 0 <= i <= |docs|
      invariant forall j :: 0 <= j < i ==> docs[j].sourceId != sourceId || docs[j].externalId != externalId
    {
      if docs[i].sourceId == sourceId && docs[i].externalId == externalId {
        return true;
      }
      i := i + 1;
    }
    return false;
  }

  /** The `for file_url in ref.file_urls` loop. */
  method AddFiles(store: Store, documentId: nat, urls: seq<string>)
    modifies store
    ensures store.Snapshot() == old(store.Snapshot()).(files := old(store.files) + NewFiles(documentId, urls))
  {
    ghost var db0 := store.Snapshot();
    var j := 0;
    while j < |urls|
      invariant 0 <= j <= |urls|
      invariant store.Snapshot() == db0.(files := db0.files + NewFiles(documentId, urls[..j]))
    {
      assert urls[..j + 1][..j] == urls[..j];
      store.files := store.files + [NewFile(documentId, urls[j])];
      j := j + 1;
    }
    assert urls[..j] == urls;
  }

  // --------------------------------------------------------------- save

  /** The document and file tables after saving one outcome. */
  function SaveDocs(db: Db, o: Outcome): Tables {
    if Truthy(o.error) then Tables(db.documents, db.files, 0)
    else SaveRefs(o.sourceId, Tables(db.documents, db.files, 0), o.refs)
  }

  /** The database after `save_discovered_documents`. */
  function Saved(db: Db, o: Outcome, now: DateTime): (r: Db)
    requires IdIn(o.sourceId, |db.sources|)
  {
    var t := SaveDocs(db, o);
    db.(sources := db.sources[o.sourceId - 1 := Health(db.sources[o.sourceId - 1], o.error, now)],
        documents := t.documents, files := t.files)
  }

  /** On error nothing is inserted and 0 is returned. */
  lemma ErrorSavesNothing(db: Db, o: Outcome, now: DateTime)
    requires IdIn(o.sourceId, |db.sources|) && Truthy(o.error)
    ensures SaveDocs(db, o).newCount == 0
    ensures Saved(db, o, now) == db.(sources := db.sources[o.sourceId - 1 :=
                                        Health(db.sources[o.sourceId - 1], o.error, now)])
  {
  }

  /** Saving keeps the pair unique and every foreign key valid. */
  lemma SavedKeepsInvariants(db: Db, o: Outcome, now: DateTime)
    requires IdIn(o.sourceId, |db.sources|)
    requires KeysValid(db) && NoDuplicatePairs(db.documents)
    ensures KeysValid(Saved(db, o, now)) && NoDuplicatePairs(Saved(db, o, now).documents)
  {
    if !Truthy(o.error) {
      var t0 := Tables(db.documents, db.files, 0);
      SaveRefsAppends(o.sourceId, t0, o.refs);
      SaveRefsAddsNew(o.sourceId, t0, o.refs);
      SaveRefsKeepsUnique(o.sourceId, t0, o.refs);
      var r := Saved(db, o, now);
      forall i | 0 <= i < |r.documents| ensures IdIn(r.documents[i].sourceId, |r.sources|) {
        if i < |db.documents| {
          assert r.documents[i] == r.documents[..|db.documents|][i];
        }
      }
      forall i | 0 <= i < |r.files| ensures IdIn(r.files[i].documentId, |r.documents|) {
        if i < |db.files| {
          assert r.files[i] == r.files[..|db.files|][i];
        }
      }
    }
  }

  /** `save_discovered_documents(source, doc_refs, error, session)`. */
  method SaveDiscoveredDocuments(store: Store, sourceId: nat, refs: seq<DocumentRef>, error: Option<string>,
                                 now: DateTime)
    returns (newCount: nat)
    requires IdIn(sourceId, |store.sources|)
    modifies store
    ensures store.Snapshot() == Saved(old(store.Snapshot()), Outcome(sourceId, refs, error), now)
    ensures newCount == SaveDocs(old(store.Snapshot()), Outcome(sourceId, refs, error)).newCount
  {
    newCount := 0;
    if !Truthy(error) {
      ghost var db0 := store.Snapshot();
      ghost var t0 := Tables(store.documents, store.files, 0);
      var i := 0;
      while i < |refs|
        invariant 0 <= i <= |refs|
        invariant Tables(store.documents, store.files, newCount) == SaveRefs(sourceId, t0, refs[..i])
        invariant store.Snapshot() == db0.(documents := store.documents, files := store.files)
      {
        var ref := refs[i];
        var existing := FindDocument(store.documents, sourceId, ref.externalId);
        if !existing {
          store.documents := store.documents + [NewDocument(sourceId, ref)];
          AddFiles(store, |store.documents|, ref.fileUrls);
          newCount := newCount + 1;
        }
        assert refs[..i + 1][..i] == refs[..i];
        i := i + 1;
      }
      assert refs[..i] == refs;
    }
    store.sources := store.sources[sourceId - 1 := Health(store.sources[sourceId - 1], error, now)];
  }

  // ---------------------------------------------------------------- run

  /** `session.query(Source).filter_by(enabled=True).all()`: the ids of the
      enabled sources, in table order. */
  function EnabledIds(sources: seq<SourceRow>): (r: seq<nat>)
    ensures forall k :: 0 <= k < |r| ==> IdIn(r[k], |sources|) && sources[r[k] - 1].enabled
    ensures forall k :: 0 <= k < |r| - 1 ==> r[k] < r[k + 1]
    ensures forall id :: IdIn(id, |sources|) && sources[id - 1].enabled ==> id in r
  {
    if sources == [] then []
    else
      var p := EnabledIds(sources[..|sources| - 1]);
      assert forall k :: 0 <= k < |p| ==> sources[..|sources| - 1][p[k] - 1] == sources[p[k] - 1];
      assert forall k :: 0 <= k < |sources| - 1 ==> sources[..|sources| - 1][k] == sources[k];
      p + (if sources[|sources| - 1].enabled then [|sources|] else [])
  }

  /** `o` is the result gathered for an enabled source that did not crash. */
  predicate IsOutcomeOf(env: Env, sources: seq<SourceRow>, raised: nat -> Option<string>, crashed: nat -> bool,
                        o: Outcome) {
    IdIn(o.sourceId, |sources|) && sources[o.sourceId - 1].enabled && !crashed(o.sourceId)
    && o == DiscoverFromSource(env, o.sourceId, sources[o.sourceId - 1], raised(o.sourceId))
  }

  /** `run_discovery_async(sources)`: one outcome per source, in order; a
      task that `gather` reports as an exception (`crashed`) is dropped. */
  function Gathered(env: Env, sources: seq<SourceRow>, ids: seq<nat>, raised: nat -> Option<string>,
                    crashed: nat -> bool): (r: seq<Outcome>)
    requires forall k :: 0 <= k < |ids| ==> IdIn(ids[k], |sources|) && sources[ids[k] - 1].enabled
    ensures |r| <= |ids|
    ensures forall k :: 0 <= k < |r| ==> IsOutcomeOf(env, sources, raised, crashed, r[k])
    ensures forall k :: 0 <= k < |r| ==> r[k].sourceId in ids
  {
    if ids == [] then []
    else
      var front := ids[..|ids| - 1];
      var id := ids[|ids| - 1];
      assert IdIn(id, |sources|);
      assert forall k :: 0 <= k < |front| ==> front[k] == ids[k];
      var tail := if crashed(id) then [] else [DiscoverFromSource(env, id, sources[id - 1], raised(id))];
      assert forall k :: 0 <= k < |tail| ==> IsOutcomeOf(env, sources, raised, crashed, tail[k]) && tail[k].sourceId == id;
      Gathered(env, sources, front, raised, crashed) + tail
  }

  /** The unsupported-platform results are skipped without a health update. */
  predicate Skipped(o: Outcome) {
    Truthy(o.error) && Contains(o.error.value, "Unsupported platform")
  }

  /** One iteration of `run`'s result loop. */
  function Handle(db: Db, o: Outcome, now: DateTime): (r: Db)
    requires IdIn(o.sourceId, |db.sources|)
    ensures |r.sources| == |db.sources|
  {
    if Skipped(o) then db else Saved(db, o, now)
  }

  /** A source row after its outcome goes through the result loop. */
  function RowAfter(s: SourceRow, o: Outcome, now: DateTime): SourceRow {
    if Skipped(o) then s else Health(s, o.error, now)
  }

  predicate AllInRange(outcomes: seq<Outcome>, n: nat) {
    forall k :: 0 <= k < |outcomes| ==> IdIn(outcomes[k].sourceId, n)
  }

  /** `run`'s result loop over the gathered outcomes. */
  function HandleAll(db: Db, outcomes: seq<Outcome>, now: DateTime): (r: Db)
    requires AllInRange(outcomes, |db.sources|)
    ensures |r.sources| == |db.sources|
    decreases |outcomes|
  {
    if outcomes == [] then db
    else
      var p := HandleAll(db, outcomes[..|outcomes| - 1], now);
      Handle(p, outcomes[|outcomes| - 1], now)
  }

  /** The database after `run()`. */
  function Discovered(db: Db, env: Env, raised: nat -> Option<string>, crashed: nat -> bool, now: DateTime): Db {
    var ids := EnabledIds(db.sources);
    var outcomes := Gathered(env, db.sources, ids, raised, crashed);
    HandleAll(db, outcomes, now)
  }

  /** Every discovery run keeps the pair unique and the keys valid. */
  lemma {:induction false} HandleAllKeepsInvariants(db: Db, outcomes: seq<Outcome>, now: DateTime)
    requires AllInRange(outcomes, |db.sources|)
    requires KeysValid(db) && NoDuplicatePairs(db.documents)
    ensures KeysValid(HandleAll(db, outcomes, now)) && NoDuplicatePairs(HandleAll(db, outcomes, now).documents)
    decreases |outcomes|
  {
    if outcomes != [] {
      HandleAllKeepsInvariants(db, outcomes[..|outcomes| - 1], now);
      var p := HandleAll(db, outcomes[..|outcomes| - 1], now);
      if !Skipped(outcomes[|outcomes| - 1]) {
        SavedKeepsInvariants(p, outcomes[|outcomes| - 1], now);
      }
    }
  }

  /** A source row that no handled outcome names is left as it was. */
  lemma {:induction false} HandleAllLeavesRow(db: Db, outcomes: seq<Outcome>, now: DateTime, id: nat)
    requires AllInRange(outcomes, |db.sources|) && IdIn(id, |db.sources|)
    requires forall k :: 0 <= k < |outcomes| && outcomes[k].sourceId == id ==> Skipped(outcomes[k])
    ensures HandleAll(db, outcomes, now).sources[id - 1] == db.sources[id - 1]
    decreases |outcomes|
  {
    if outcomes != [] {
      HandleAllLeavesRow(db, outcomes[..|outcomes| - 1], now, id);
    }
  }

  /** An unsupported platform's outcome is skipped. */
  lemma UnsupportedSkipped(env: Env, id: nat, source: SourceRow, raised: Option<string>)
    requires !Supported(source.platform)
    ensures Skipped(DiscoverFromSource(env, id, source, raised))
  {
    var msg := "Unsupported platform: " + source.platform;
    assert msg[..|"Unsupported platform"|] == "Unsupported platform";
    ContainsPrefix(msg, "Unsupported platform");
  }

  /** A disabled source, a crashed task and an unsupported platform leave
      the source's row (health counters included) unchanged. */
  lemma UntouchedSource(db: Db, env: Env, raised: nat -> Option<string>, crashed: nat -> bool, now: DateTime,
                        id: nat)
    requires IdIn(id, |db.sources|)
    requires !db.sources[id - 1].enabled || crashed(id) || !Supported(db.sources[id - 1].platform)
    ensures Discovered(db, env, raised, crashed, now).sources[id - 1] == db.sources[id - 1]
  {
    var outcomes := Gathered(env, db.sources, EnabledIds(db.sources), raised, crashed);
    OutcomesOfIdSkipped(env, db.sources, raised, crashed, outcomes, id);
    HandleAllLeavesRow(db, outcomes, now, id);
  }

  lemma OutcomesOfIdSkipped(env: Env, sources: seq<SourceRow>, raised: nat -> Option<string>, crashed: nat -> bool,
                            outcomes: seq<Outcome>, id: nat)
    requires forall k :: 0 <= k < |outcomes| ==> IsOutcomeOf(env, sources, raised, crashed, outcomes[k])
    requires IdIn(id, |sources|)
    requires !sources[id - 1].enabled || crashed(id) || !Supported(sources[id - 1].platform)
    ensures forall k :: 0 <= k < |outcomes| && outcomes[k].sourceId == id ==> Skipped(outcomes[k])
  {
    forall k | 0 <= k < |outcomes| && outcomes[k].sourceId == id ensures Skipped(outcomes[k]) {
      assert IsOutcomeOf(env, sources, raised, crashed, outcomes[k]);
      UnsupportedSkipped(env, id, sources[id - 1], raised(id));
    }
  }

  /** Discovery keeps the pair unique and the keys valid. */
  lemma DiscoveredKeepsInvariants(db: Db, env: Env, raised: nat -> Option<string>, crashed: nat -> bool,
                                  now: DateTime)
    requires KeysValid(db) && NoDuplicatePairs(db.documents)
    ensures var r := Discovered(db, env, raised, crashed, now);
            KeysValid(r) && NoDuplicatePairs(r.documents)
  {
    HandleAllKeepsInvariants(db, Gathered(env, db.sources, EnabledIds(db.sources), raised, crashed), now);
  }

  /** Every id before the last of an increasing list is smaller than it. */
  lemma {:induction false} BelowLastId(ids: seq<nat>)
    requires ids != [] && forall k :: 0 <= k < |ids| - 1 ==> ids[k] < ids[k + 1]
    ensures forall k :: 0 <= k < |ids| - 1 ==> ids[k] < ids[|ids| - 1]
    decreases |ids|
  {
    if |ids| > 1 {
      var front := ids[..|ids| - 1];
      BelowLastId(front);
    }
  }

  /** Each listed source that did not crash has exactly one gathered
      outcome. */
  lemma {:induction false} GatheredOnce(env: Env, sources: seq<SourceRow>, ids: seq<nat>,
                                        raised: nat -> Option<string>, crashed: nat -> bool, id: nat) returns (k: nat)
    requires forall k :: 0 <= k < |ids| ==> IdIn(ids[k], |sources|) && sources[ids[k] - 1].enabled
    requires forall k :: 0 <= k < |ids| - 1 ==> ids[k] < ids[k + 1]
    requires id in ids && !crashed(id)
    ensures var r := Gathered(env, sources, ids, raised, crashed);
            k < |r| && r[k].sourceId == id && forall j :: 0 <= j < |r| && j != k ==> r[j].sourceId != id
    decreases |ids|
  {
    var front := ids[..|ids| - 1];
    var last := ids[|ids| - 1];
    assert forall j :: 0 <= j < |front| ==> front[j] == ids[j];
    var p := Gathered(env, sources, front, raised, crashed);
    if last == id {
      BelowLastId(ids);
      k := |p|;
    } else {
      assert id in front;
      k := GatheredOnce(env, sources, front, raised, crashed, id);
    }
  }

  /** Gathered outcomes all name sources of the table. */
  lemma GatheredInRange(env: Env, sources: seq<SourceRow>, ids: seq<nat>, raised: nat -> Option<string>,
                        crashed: nat -> bool)
    requires forall k :: 0 <= k < |ids| ==> IdIn(ids[k], |sources|) && sources[ids[k] - 1].enabled
    ensures AllInRange(Gathered(env, sources, ids, raised, crashed), |sources|)
  {
    var r := Gathered(env, sources, ids, raised, crashed);
    forall k | 0 <= k < |r| ensures IdIn(r[k].sourceId, |sources|) {
      assert IsOutcomeOf(env, sources, raised, crashed, r[k]);
    }
  }

  /** A gathered outcome is its source's connector result. */
  lemma OutcomeIsResult(env: Env, sources: seq<SourceRow>, raised: nat -> Option<string>, crashed: nat -> bool,
                        o: Outcome, id: nat)
    requires IsOutcomeOf(env, sources, raised, crashed, o) && o.sourceId == id
    ensures IdIn(id, |sources|) && o == DiscoverFromSource(env, id, sources[id - 1], raised(id))
  {
  }

  /** One outcome's save keeps every pair already present. */
  lemma HandleKeepsPair(db: Db, o: Outcome, now: DateTime, sid: nat, eid: string)
    requires IdIn(o.sourceId, |db.sources|) && HasDocument(db.documents, sid, eid)
    ensures HasDocument(Handle(db, o, now).documents, sid, eid)
  {
    if !Skipped(o) && !Truthy(o.error) {
      SaveRefsKeepsPair(o.sourceId, Tables(db.documents, db.files, 0), o.refs, sid, eid);
    }
  }

  /** An outcome without error has each of its references' pairs present
      after the whole result loop. */
  lemma {:induction false} HandleAllSaves(db: Db, outcomes: seq<Outcome>, now: DateTime, k: nat, m: nat)
    requires AllInRange(outcomes, |db.sources|) && k < |outcomes| && !Truthy(outcomes[k].error)
    requires m < |outcomes[k].refs|
    ensures HasDocument(HandleAll(db, outcomes, now).documents, outcomes[k].sourceId, outcomes[k].refs[m].externalId)
    decreases |outcomes|
  {
    var n := |outcomes| - 1;
    var front := outcomes[..n];
    var p := HandleAll(db, front, now);
    if k < n {
      assert front[k] == outcomes[k];
      HandleAllSaves(db, front, now, k, m);
      HandleKeepsPair(p, outcomes[n], now, outcomes[k].sourceId, outcomes[k].refs[m].externalId);
    } else {
      SaveRefsCoversAll(outcomes[n].sourceId, Tables(p.documents, p.files, 0), outcomes[n].refs, m);
    }
  }

  /** The only outcome of a source decides its row after the result loop:
      unchanged when skipped, otherwise the health update of that outcome. */
  lemma {:induction false} HandleAllOnce(db: Db, outcomes: seq<Outcome>, now: DateTime, k: nat)
    requires AllInRange(outcomes, |db.sources|) && k < |outcomes|
    requires forall j :: 0 <= j < |outcomes| && j != k ==> outcomes[j].sourceId != outcomes[k].sourceId
    ensures HandleAll(db, outcomes, now).sources[outcomes[k].sourceId - 1]
              == RowAfter(db.sources[outcomes[k].sourceId - 1], outcomes[k], now)
    decreases |outcomes|
  {
    var n := |outcomes| - 1;
    var front := outcomes[..n];
    if k < n {
      assert front[k] == outcomes[k];
      assert forall j :: 0 <= j < |front| && j != k ==> front[j] == outcomes[j];
      HandleAllOnce(db, front, now, k);
    } else {
      assert forall j :: 0 <= j < |front| ==> front[j] == outcomes[j];
      HandleAllLeavesRow(db, front, now, outcomes[k].sourceId);
    }
  }

  /** The row of source `id`, named by the only outcome `k`, after the
      result loop. */
  lemma RecordedRow(db: Db, outcomes: seq<Outcome>, now: DateTime, k: nat, id: nat)
    requires AllInRange(outcomes, |db.sources|) && k < |outcomes| && outcomes[k].sourceId == id
    requires forall j :: 0 <= j < |outcomes| && j != k ==> outcomes[j].sourceId != id
    ensures IdIn(id, |db.sources|)
    ensures HandleAll(db, outcomes, now).sources[id - 1] == RowAfter(db.sources[id - 1], outcomes[k], now)
  {
    HandleAllOnce(db, outcomes, now, k);
  }

  /** The result loop over the outcomes gathered for `ids` records the
      health of each listed source that did not crash, from its only
      outcome `k`. */
  lemma GatheredHealth(db: Db, env: Env, ids: seq<nat>, raised: nat -> Option<string>, crashed: nat -> bool,
                       now: DateTime, id: nat) returns (k: nat)
    requires forall k :: 0 <= k < |ids| ==> IdIn(ids[k], |db.sources|) && db.sources[ids[k] - 1].enabled
    requires forall k :: 0 <= k < |ids| - 1 ==> ids[k] < ids[k + 1]
    requires id in ids && !crashed(id) && IdIn(id, |db.sources|)
    ensures var outcomes := Gathered(env, db.sources, ids, raised, crashed);
            k < |outcomes| && outcomes[k].sourceId == id
            && HandleAll(db, outcomes, now).sources[id - 1] == RowAfter(db.sources[id - 1], outcomes[k], now)
  {
    var outcomes := Gathered(env, db.sources, ids, raised, crashed);
    k := GatheredOnce(env, db.sources, ids, raised, crashed, id);
    GatheredInRange(env, db.sources, ids, raised, crashed);
    RecordedRow(db, outcomes, now, k, id);
  }

  /** The result loop over the outcomes gathered for `ids` saves each
      document of a listed source that did not crash and reported no error. */
  lemma GatheredSaves(db: Db, env: Env, ids: seq<nat>, raised: nat -> Option<string>, crashed: nat -> bool,
                      now: DateTime, id: nat, m: nat)
    requires forall k :: 0 <= k < |ids| ==> IdIn(ids[k], |db.sources|) && db.sources[ids[k] - 1].enabled
    requires forall k :: 0 <= k < |ids| - 1 ==> ids[k] < ids[k + 1]
    requires id in ids && !crashed(id) && IdIn(id, |db.sources|)
    requires var o := DiscoverFromSource(env, id, db.sources[id - 1], raised(id));
             !Truthy(o.error) && m < |o.refs|
    ensures var o := DiscoverFromSource(env, id, db.sources[id - 1], raised(id));
            HasDocument(HandleAll(db, Gathered(env, db.sources, ids, raised, crashed), now).documents, id,
                        o.refs[m].externalId)
  {
    var outcomes := Gathered(env, db.sources, ids, raised, crashed);
    var k := GatheredOnce(env, db.sources, ids, raised, crashed, id);
    OutcomeIsResult(env, db.sources, raised, crashed, outcomes[k], id);
    HandleAllSaves(db, outcomes, now, k, m);
  }

  /** A run records the health of every enabled source whose task did not
      crash: its row takes the update of its connector's result, unless that
      result is skipped for the platform. */
  lemma DiscoveredHealth(db: Db, env: Env, raised: nat -> Option<string>, crashed: nat -> bool, now: DateTime,
                         id: nat)
    requires IdIn(id, |db.sources|) && db.sources[id - 1].enabled && !crashed(id)
    ensures var o := DiscoverFromSource(env, id, db.sources[id - 1], raised(id));
            Discovered(db, env, raised, crashed, now).sources[id - 1]
              == if Skipped(o) then db.sources[id - 1] else Health(db.sources[id - 1], o.error, now)
  {
    var ids := EnabledIds(db.sources);
    var k := GatheredHealth(db, env, ids, raised, crashed, now, id);
    OutcomeIsResult(env, db.sources, raised, crashed, Gathered(env, db.sources, ids, raised, crashed)[k], id);
  }

  /** A run saves every document discovered by an enabled source whose task
      did not crash and reported no error: each `(source_id, external_id)`
      pair is present afterwards. */
  lemma DiscoveredSaves(db: Db, env: Env, raised: nat -> Option<string>, crashed: nat -> bool, now: DateTime,
                        id: nat, m: nat)
    requires IdIn(id, |db.sources|) && db.sources[id - 1].enabled && !crashed(id)
    requires var o := DiscoverFromSource(env, id, db.sources[id - 1], raised(id));
             !Truthy(o.error) && m < |o.refs|
    ensures var o := DiscoverFromSource(env, id, db.sources[id - 1], raised(id));
            HasDocument(Discovered(db, env, raised, crashed, now).documents, id, o.refs[m].externalId)
  {
    GatheredSaves(db, env, EnabledIds(db.sources), raised, crashed, now, id, m);
  }

  /** The `filter_by(enabled=True)` query. */
  method QueryEnabled(sources: seq<SourceRow>) returns (ids: seq<nat>)
    ensures ids == EnabledIds(sources)
  {
    ids := [];
    var i := 0;
    while i < |sources|
      invariant 0 <= i <= |sources|
      invariant ids == EnabledIds(sources[..i])
    {
      assert sources[..i + 1][..i] == sources[..i];
      if sources[i].enabled {
        ids := ids + [i + 1];
      }
      i := i + 1;
    }
    assert sources[..i] == sources;
  }

  /** `run_discovery_async(sources)`. */
  method GatherResults(env: Env, sources: seq<SourceRow>, ids: seq<nat>, raised: nat -> Option<string>,
                       crashed: nat -> bool)
    returns (outcomes: seq<Outcome>)
    requires forall k :: 0 <= k < |ids| ==> IdIn(ids[k], |sources|) && sources[ids[k] - 1].enabled
    ensures outcomes == Gathered(env, sources, ids, raised, crashed)
  {
    outcomes := [];
    var i := 0;
    while i < |ids|
      invariant 0 <= i <= |ids|
      invariant outcomes == Gathered(env, sources, ids[..i], raised, crashed)
    {
      assert ids[..i + 1][..i] == ids[..i];
      var id := ids[i];
      if !crashed(id) {
        outcomes := outcomes + [DiscoverFromSource(env, id, sources[id - 1], raised(id))];
      }
      i := i + 1;
    }
    assert ids[..i] == ids;
  }

  /** One iteration of `run`'s result loop; returns the new documents. */
  method HandleOutcome(store: Store, o: Outcome, now: DateTime) returns (newCount: nat)
    requires IdIn(o.sourceId, |store.sources|)
    modifies store
    ensures store.Snapshot() == Handle(old(store.Snapshot()), o, now)
  {
    newCount := 0;
    if !Skipped(o) {
      newCount := SaveDiscoveredDocuments(store, o.sourceId, o.refs, o.error, now);
    }
  }

  /** `run`'s loop over the gathered results. */
  method HandleResults(store: Store, outcomes: seq<Outcome>, now: DateTime) returns (totalNew: nat)
    requires AllInRange(outcomes, |store.sources|)
    modifies store
    ensures store.Snapshot() == HandleAll(old(store.Snapshot()), outcomes, now)
  {
    ghost var db0 := store.Snapshot();
    totalNew := 0;
    var i := 0;
    while i < |outcomes|
      invariant 0 <= i <= |outcomes|
      invariant AllInRange(outcomes[..i], |db0.sources|)
      invariant |store.sources| == |db0.sources|
      invariant store.Snapshot() == HandleAll(db0, outcomes[..i], now)
    {
      assert outcomes[..i + 1][..i] == outcomes[..i];
      assert HandleAll(db0, outcomes[..i + 1], now) == Handle(store.Snapshot(), outcomes[i], now);
      var n := HandleOutcome(store, outcomes[i], now);
      totalNew := totalNew + n;
      i := i + 1;
    }
    assert outcomes[..i] == outcomes;
  }

  /** `run()`; returns the total of new documents. */
  method Run(store: Store, env: Env, raised: nat -> Option<string>, crashed: nat -> bool, now: DateTime)
    returns (totalNew: nat)
    modifies store
    ensures store.Snapshot() == Discovered(old(store.Snapshot()), env, raised, crashed, now)
  {
    var ids := QueryEnabled(store.sources);
    if ids == [] {
      return 0;
    }
    var outcomes := GatherResults(env, store.sources, ids, raised, crashed);
    totalNew := HandleResults(store, outcomes, now);
  }
}
