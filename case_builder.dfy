/** The case-building stage: each processed, high-scoring document with
    text and no evidence yet is sent to the larger model, whose reply
    either adds evidence to an existing case with the same permit number
    or creates a new case with its evidence and timeline. The model and
    `datetime.fromisoformat` are oracles; the clock is a parameter. */
module CaseBuilder {
  import opened Wrappers
  import opened Text
  import opened Calendar
  import opened Models
  import opened Database
  import Triage
  import opened SqlLike

  // ------------------------------------------------------------ reply

  /** An item of the reply's `evidence` list, with its `page` and
      `snippet` members (snippet default ""). */
  datatype EvidenceItem = EvidenceItem(page: Option<int>, snippet: string)

  /** An item of the reply's `timeline` list: its `date` and `event`
      members with their "" defaults. */
  datatype TimelineItem = TimelineItem(date: string, event: string)

  /** The parsed reply. Absent members are `None` or empty; `permitNumber`
      and `location` are the members of `entities` (default ""), and
      `entitiesJson` is `json.dumps(entities)`. */
  datatype CaseResult = CaseResult(
    headline: Option<string>,
    debrief: seq<string>,
    status: Option<string>,
    confidence: Option<string>,
    confidenceReason: Option<string>,
    evidence: seq<EvidenceItem>,
    timeline: seq<TimelineItem>,
    permitNumber: string,
    location: string,
    entitiesJson: string)

  /** A call that raises, or a reply with its token counts and its content,
      `None` when it is not valid JSON. */
  datatype Reply = Raised | Answered(promptTokens: nat, completionTokens: nat, result: Option<CaseResult>)

  /** `case_builder_max_tokens`. */
  const DefaultMaxTokens := 8000
  /** The length of the `headline` column. */
  const HeadlineMax := 300

  // --------------------------------------------------------- matching

  /** The first case, from index `from` on, whose entities pass the SQL
      `contains` test for `permit`. */
  function FirstContaining(cases: seq<CaseRow>, permit: string, from: nat): (r: Option<nat>)
    requires from <= |cases|
    ensures r.Some? ==> from < r.value <= |cases| && LikeContains(cases[r.value - 1].entitiesJson, permit)
                        && forall k :: from <= k < r.value - 1 ==> !LikeContains(cases[k].entitiesJson, permit)
    ensures r.None? ==> forall k :: from <= k < |cases| ==> !LikeContains(cases[k].entitiesJson, permit)
    decreases |cases| - from
  {
    if from == |cases| then None
    else if LikeContains(cases[from].entitiesJson, permit) then Some(from + 1)
    else FirstContaining(cases, permit, from + 1)
  }

  /** `find_matching_case`: the id of the first case whose entities pass
      the SQL `contains` test for the (non-empty) permit number. */
  function FindMatchingCase(cases: seq<CaseRow>, permit: string): (r: Option<nat>)
    ensures permit == "" ==> r.None?
    ensures r.Some? ==> IdIn(r.value, |cases|) && LikeContains(cases[r.value - 1].entitiesJson, permit)
                        && forall k :: 0 <= k < r.value - 1 ==> !LikeContains(cases[k].entitiesJson, permit)
    ensures permit != "" && r.None? ==> forall k :: 0 <= k < |cases| ==> !LikeContains(cases[k].entitiesJson, permit)
  {
    if permit == "" then None else FirstContaining(cases, permit, 0)
  }

  // --------------------------------------------------------- new case

  /** `result.get("confidence", "medium")`, with values outside the
      enumeration replaced by "medium". */
  function NormalConfidence(v: Option<string>): (c: Confidence)
    ensures v.Some? && v.value in {"high", "medium", "low"} ==> ConfidenceValue(c) == v.value
    ensures v.None? || v.value !in {"high", "medium", "low"} ==> c == Medium
  {
    if v.Some? && ParseConfidence(v.value).Some? then ParseConfidence(v.value).value else Medium
  }

  /** `result.get("status", "unknown")`, with values outside the enumeration
      replaced by "unknown". */
  function NormalStatus(v: Option<string>): (s: CaseStatus)
    ensures v.Some? && v.value in {"proposed", "approved", "unknown"} ==> CaseStatusValue(s) == v.value
    ensures v.None? || v.value !in {"proposed", "approved", "unknown"} ==> s == UnknownStatus
  {
    if v.Some? && ParseCaseStatus(v.value).Some? then ParseCaseStatus(v.value).value else UnknownStatus
  }

  /** The debrief as a Markdown list, one `- point` line per point. */
  function Summary(debrief: seq<string>): (r: string)
    ensures debrief == [] ==> r == ""
    ensures |debrief| == 1 ==> r == "- " + debrief[0]
  {
    Join(seq(|debrief|, k requires 0 <= k < |debrief| => "- " + debrief[k]), "\n")
  }

  /** The case a reply creates. The headline is the reply's (or the
      document title) cut to the column length. */
  function NewCase(title: string, municipality: string, categories: seq<string>, r: CaseResult, now: DateTime)
    : (c: CaseRow)
    ensures |c.headline| <= HeadlineMax && StartsWith(r.headline.GetOr(title), c.headline)
    ensures |r.headline.GetOr(title)| <= HeadlineMax ==> c.headline == r.headline.GetOr(title)
    ensures c.primaryCategory == if categories == [] then "unknown" else categories[0]
    ensures c.municipalities == [municipality] && c.entitiesJson == r.entitiesJson && c.location == r.location
    ensures c.confidenceReason == r.confidenceReason && c.updatedAt == now
  {
    CaseRow(if categories == [] then "unknown" else categories[0],
            Prefix(r.headline.GetOr(title), HeadlineMax),
            Summary(r.debrief),
            NormalStatus(r.status),
            NormalConfidence(r.confidence),
            r.confidenceReason,
            [municipality],
            r.entitiesJson,
            r.location,
            now)
  }

  /** The evidence rows for a reply: one per item, linked to the case and
      the document, with the snippet copied verbatim. */
  function EvidenceRows(caseId: nat, documentId: nat, sourceUrl: string, items: seq<EvidenceItem>)
    : (r: seq<EvidenceRow>)
    ensures |r| == |items|
    ensures forall k :: 0 <= k < |r| ==>
              r[k].caseId == caseId && r[k].documentId == Some(documentId) && r[k].fileId.None?
              && r[k].snippet == items[k].snippet && r[k].page == items[k].page && r[k].sourceUrl == sourceUrl
  {
    seq(|items|, k requires 0 <= k < |items| =>
      EvidenceRow(caseId, None, Some(documentId), items[k].page, items[k].snippet, sourceUrl))
  }

  /** One "timeline" event per item, timed by the ISO date when it parses. */
  function TimelineEvents(caseId: nat, items: seq<TimelineItem>, parseIso: string -> Option<DateTime>)
    : (r: seq<CaseEventRow>)
    ensures |r| == |items|
    ensures forall k :: 0 <= k < |r| ==>
              r[k].caseId == caseId && r[k].eventType == "timeline" && r[k].eventTime == parseIso(items[k].date)
              && r[k].payload == DescriptionPayload(items[k].event)
  {
    seq(|items|, k requires 0 <= k < |items| =>
      CaseEventRow(caseId, "timeline", parseIso(items[k].date), DescriptionPayload(items[k].event)))
  }

  // -------------------------------------------------------- selection

  /** A work item: the document, its text and its triage categories. */
  datatype CaseWork = CaseWork(id: nat, text: string, categories: seq<string>)

  /** `session.query(Evidence).filter_by(document_id=...).first()`. */
  predicate HasEvidence(evidence: seq<EvidenceRow>, documentId: nat) {
    exists k :: 0 <= k < |evidence| && evidence[k].documentId == Some(documentId)
  }

  /** Document `i + 1` is ready for case building: processed, scored at
      least 0.6, without evidence, and with text. */
  predicate IsCandidate(db: Db, i: nat)
    requires i < |db.documents|
  {
    var d := db.documents[i];
    d.status == Processed && d.triageScore.Some? && d.triageScore.value >= 0.6
    && !HasEvidence(db.evidence, i + 1) && Triage.CombinedText(db.files, i + 1) != ""
  }

  /** The stored categories, `["unknown"]` when there are none. */
  function CategoriesOf(d: DocumentRow): seq<string> {
    if d.triageCategories.Some? then d.triageCategories.value else ["unknown"]
  }

  /** The candidates among the first `n` documents, in table order. */
  function CandidatesUpTo(db: Db, n: nat): (r: seq<CaseWork>)
    requires n <= |db.documents|
    ensures forall k :: 0 <= k < |r| ==>
              IdIn(r[k].id, n) && IsCandidate(db, r[k].id - 1)
              && r[k].text == Triage.CombinedText(db.files, r[k].id)
              && r[k].categories == CategoriesOf(db.documents[r[k].id - 1])
    ensures forall k :: 0 <= k < |r| - 1 ==> r[k].id < r[k + 1].id
    decreases n
  {
    if n == 0 then []
    else
      CandidatesUpTo(db, n - 1)
      + if IsCandidate(db, n - 1)
        then [CaseWork(n, Triage.CombinedText(db.files, n), CategoriesOf(db.documents[n - 1]))]
        else []
  }

  /** The work list of `run()`. */
  function Candidates(db: Db): seq<CaseWork> {
    CandidatesUpTo(db, |db.documents|)
  }

  /** Every candidate document is in the work list, at position `k`. */
  lemma {:induction false} CandidatesComplete(db: Db, n: nat, i: nat) returns (k: nat)
    requires i < n <= |db.documents| && IsCandidate(db, i)
    ensures k < |CandidatesUpTo(db, n)| && CandidatesUpTo(db, n)[k].id == i + 1
    decreases n
  {
    if i < n - 1 {
      k := CandidatesComplete(db, n - 1, i);
      CandidatesKeepPrefix(db, n, k);
    } else {
      CandidateAtEnd(db, n);
      k := |CandidatesUpTo(db, n - 1)|;
    }
  }

  /** Looking at one more document keeps the earlier work items. */
  lemma CandidatesKeepPrefix(db: Db, n: nat, k: nat)
    requires 0 < n <= |db.documents| && k < |CandidatesUpTo(db, n - 1)|
    ensures k < |CandidatesUpTo(db, n)| && CandidatesUpTo(db, n)[k] == CandidatesUpTo(db, n - 1)[k]
  {
  }

  /** A candidate document is appended when it is looked at. */
  lemma CandidateAtEnd(db: Db, n: nat)
    requires 0 < n <= |db.documents| && IsCandidate(db, n - 1)
    ensures var k := |CandidatesUpTo(db, n - 1)|; k < |CandidatesUpTo(db, n)| && CandidatesUpTo(db, n)[k].id == n
  {
  }

  /** Without triage scores there is nothing to build. */
  lemma {:induction false} NoScoreNoCandidates(db: Db, n: nat)
    requires n <= |db.documents|
    requires forall j :: 0 <= j < |db.documents| ==> db.documents[j].triageScore.None?
    ensures CandidatesUpTo(db, n) == []
    decreases n
  {
    if n > 0 {
      NoScoreNoCandidates(db, n - 1);
    }
  }

  // ------------------------------------------------------------ build

  /** Every document's source exists. */
  predicate SourcesValid(db: Db) {
    forall i :: 0 <= i < |db.documents| ==> IdIn(db.documents[i].sourceId, |db.sources|)
  }

  /** The usage row of one reply, priced as gpt-4o. */
  function CaseUsage(id: nat, promptTokens: nat, completionTokens: nat): (u: UsageRow)
    ensures u.documentId == Some(id) && u.model == "gpt-4o" && u.stage == "case_builder"
    ensures u.estimatedCostEur == Triage.EstimateCost(promptTokens, completionTokens, "gpt-4o")
  {
    UsageRow(Some(id), "gpt-4o", "case_builder", promptTokens, completionTokens,
             Triage.EstimateCost(promptTokens, completionTokens, "gpt-4o"))
  }

  /** `build_case` applied to the database: a merge into the matching case,
      or a new case. */
  function BuildOne(db: Db, w: CaseWork, reply: Reply, now: DateTime, parseIso: string -> Option<DateTime>)
    : (r: Db)
    requires IdIn(w.id, |db.documents|) && SourcesValid(db)
    ensures r == db.(cases := r.cases, events := r.events, evidence := r.evidence, usage := r.usage)
  {
    match reply
    case Raised => db
    case Answered(pt, ct, result) =>
      var db1 := db.(usage := db.usage + [CaseUsage(w.id, pt, ct)]);
      if result.None? then db1
      else
        var res := result.value;
        var doc := db.documents[w.id - 1];
        match FindMatchingCase(db.cases, res.permitNumber)
        case Some(m) =>
          db1.(cases := db.cases[m - 1 := db.cases[m - 1].(updatedAt := now)],
               evidence := db.evidence + EvidenceRows(m, w.id, doc.sourceUrl, res.evidence),
               events := db.events + [CaseEventRow(m, "evidence_added", Some(now), DocumentPayload(w.id))])
        case None =>
          var c := |db.cases| + 1;
          var municipality := db.sources[doc.sourceId - 1].municipality;
          db1.(cases := db.cases + [NewCase(doc.title, municipality, w.categories, res, now)],
               evidence := db.evidence + EvidenceRows(c, w.id, doc.sourceUrl, res.evidence),
               events := db.events + TimelineEvents(c, res.timeline, parseIso))
  }

  /** The model's reply to a work item, shown at most `maxChars` characters. */
  function ReplyTo(ask: (nat, string) -> Reply, w: CaseWork, maxChars: nat): Reply {
    ask(w.id, Triage.TruncateText(w.text, maxChars))
  }

  /** Every work item names an existing document. */
  predicate WorkIn(work: seq<CaseWork>, n: nat) {
    forall k :: 0 <= k < |work| ==> IdIn(work[k].id, n)
  }

  /** The build loop over the work list. */
  function BuildAll(db: Db, work: seq<CaseWork>, ask: (nat, string) -> Reply, maxChars: nat, now: DateTime,
                    parseIso: string -> Option<DateTime>): (r: Db)
    requires WorkIn(work, |db.documents|) && SourcesValid(db)
    ensures r == db.(cases := r.cases, events := r.events, evidence := r.evidence, usage := r.usage)
    decreases |work|
  {
    if work == [] then db
    else
      var w := work[|work| - 1];
      BuildOne(BuildAll(db, work[..|work| - 1], ask, maxChars, now, parseIso), w, ReplyTo(ask, w, maxChars), now,
               parseIso)
  }

  /** The database after `run()`. Without an API key nothing happens. */
  function AfterBuild(db: Db, apiKey: string, ask: (nat, string) -> Reply, maxTokens: nat, now: DateTime,
                      parseIso: string -> Option<DateTime>): (r: Db)
    requires SourcesValid(db)
    ensures r == db.(cases := r.cases, events := r.events, evidence := r.evidence, usage := r.usage)
  {
    if apiKey == "" then db
    else BuildAll(db, Candidates(db), ask, maxTokens * Triage.CharsPerToken, now, parseIso)
  }

  // ----------------------------------------------------------- lemmas

  /** A reply naming the permit of an existing case merges into the first
      such case: only its update time changes, the evidence is linked to
      it, and exactly one "evidence_added" event records the document. */
  lemma MergeIntoMatchingCase(db: Db, w: CaseWork, pt: nat, ct: nat, res: CaseResult, now: DateTime,
                              parseIso: string -> Option<DateTime>, m: nat)
    requires IdIn(w.id, |db.documents|) && SourcesValid(db)
    requires FindMatchingCase(db.cases, res.permitNumber) == Some(m)
    ensures var r := BuildOne(db, w, Answered(pt, ct, Some(res)), now, parseIso);
            |r.cases| == |db.cases| && r.cases[m - 1] == db.cases[m - 1].(updatedAt := now)
            && (forall k :: 0 <= k < |db.cases| && k != m - 1 ==> r.cases[k] == db.cases[k])
            && |r.events| == |db.events| + 1
            && r.events[|db.events|] == CaseEventRow(m, "evidence_added", Some(now), DocumentPayload(w.id))
            && r.evidence == db.evidence + EvidenceRows(m, w.id, db.documents[w.id - 1].sourceUrl, res.evidence)
            && LikeContains(db.cases[m - 1].entitiesJson, res.permitNumber) && res.permitNumber != ""
  {
  }

  /** A reply whose permit differs from a stored one only by `_` for "-"
      or by the case of its letters still merges into the stored case. */
  lemma PermitVariantsMatch(cases: seq<CaseRow>)
    requires cases != [] && Contains(cases[0].entitiesJson, StoredPermit)
    ensures FindMatchingCase(cases, "MAL_2025_42") == Some(1)
    ensures FindMatchingCase(cases, "mal-2025-42") == Some(1)
  {
    WildcardAndCaseMatch(cases[0].entitiesJson);
  }

  /** A reply matching no case creates one, at the next id, with its
      evidence and one timeline event per item. */
  lemma NewCaseCreated(db: Db, w: CaseWork, pt: nat, ct: nat, res: CaseResult, now: DateTime,
                       parseIso: string -> Option<DateTime>)
    requires IdIn(w.id, |db.documents|) && SourcesValid(db)
    requires FindMatchingCase(db.cases, res.permitNumber).None?
    ensures var r := BuildOne(db, w, Answered(pt, ct, Some(res)), now, parseIso);
            var doc := db.documents[w.id - 1];
            r.cases == db.cases + [NewCase(doc.title, db.sources[doc.sourceId - 1].municipality, w.categories, res, now)]
            && r.evidence == db.evidence + EvidenceRows(|db.cases| + 1, w.id, doc.sourceUrl, res.evidence)
            && r.events == db.events + TimelineEvents(|db.cases| + 1, res.timeline, parseIso)
  {
  }

  /** Each answered call adds exactly one usage row; a call that raises
      adds nothing, and an unreadable reply adds only the usage row. */
  lemma UsageOfReply(db: Db, w: CaseWork, reply: Reply, now: DateTime, parseIso: string -> Option<DateTime>)
    requires IdIn(w.id, |db.documents|) && SourcesValid(db)
    ensures var r := BuildOne(db, w, reply, now, parseIso);
            (reply.Raised? ==> r == db)
            && (reply.Answered? ==> r.usage == db.usage + [CaseUsage(w.id, reply.promptTokens, reply.completionTokens)])
            && (reply.Answered? && reply.result.None? ==> r == db.(usage := r.usage))
  {
  }

  /** The foreign keys of everything the stage writes stay valid. */
  lemma BuildOneKeepsKeys(db: Db, w: CaseWork, reply: Reply, now: DateTime, parseIso: string -> Option<DateTime>)
    requires IdIn(w.id, |db.documents|) && SourcesValid(db) && KeysValid(db)
    ensures KeysValid(BuildOne(db, w, reply, now, parseIso))
  {
    var r := BuildOne(db, w, reply, now, parseIso);
    if reply.Answered? && reply.result.Some? {
      var res := reply.result.value;
      var m := FindMatchingCase(db.cases, res.permitNumber);
      var c := if m.Some? then m.value else |db.cases| + 1;
      var items := res.evidence;
      var rows := EvidenceRows(c, w.id, db.documents[w.id - 1].sourceUrl, items);
      assert IdIn(c, |r.cases|);
      assert r.evidence == db.evidence + rows;
      EvidenceKeys(db.evidence, rows, c, w.id, |db.cases|, |r.cases|, |db.files|, |db.documents|);
      EventKeys(db, r, c);
    }
  }

  /** Appended evidence rows keep the evidence keys valid. */
  lemma EvidenceKeys(old_: seq<EvidenceRow>, rows: seq<EvidenceRow>, c: nat, d: nat, n0: nat, n1: nat,
                     files: nat, docs: nat)
    requires n0 <= n1 && IdIn(c, n1) && IdIn(d, docs)
    requires forall k :: 0 <= k < |rows| ==> rows[k].caseId == c && rows[k].documentId == Some(d) && rows[k].fileId.None?
    requires forall i :: 0 <= i < |old_| ==> IdIn(old_[i].caseId, n0)
    requires forall i :: 0 <= i < |old_| && old_[i].fileId.Some? ==> IdIn(old_[i].fileId.value, files)
    requires forall i :: 0 <= i < |old_| && old_[i].documentId.Some? ==> IdIn(old_[i].documentId.value, docs)
    ensures var e := old_ + rows;
            (forall i :: 0 <= i < |e| ==> IdIn(e[i].caseId, n1))
            && (forall i :: 0 <= i < |e| && e[i].fileId.Some? ==> IdIn(e[i].fileId.value, files))
            && (forall i :: 0 <= i < |e| && e[i].documentId.Some? ==> IdIn(e[i].documentId.value, docs))
  {
    var e := old_ + rows;
    forall i | 0 <= i < |e|
      ensures IdIn(e[i].caseId, n1)
      ensures e[i].fileId.Some? ==> IdIn(e[i].fileId.value, files)
      ensures e[i].documentId.Some? ==> IdIn(e[i].documentId.value, docs)
    {
      if i >= |old_| {
        assert e[i] == rows[i - |old_|];
      } else {
        assert e[i] == old_[i];
      }
    }
  }

  /** Appended events name the case the build wrote. */
  lemma EventKeys(db: Db, r: Db, c: nat)
    requires forall i :: 0 <= i < |db.events| ==> IdIn(db.events[i].caseId, |db.cases|)
    requires |db.cases| <= |r.cases| && IdIn(c, |r.cases|) && |db.events| <= |r.events|
    requires r.events[..|db.events|] == db.events
    requires forall i :: |db.events| <= i < |r.events| ==> r.events[i].caseId == c
    ensures forall i :: 0 <= i < |r.events| ==> IdIn(r.events[i].caseId, |r.cases|)
  {
    forall i | 0 <= i < |r.events|
      ensures IdIn(r.events[i].caseId, |r.cases|)
    {
      if i < |db.events| {
        assert r.events[i] == db.events[i];
      }
    }
  }

  /** The stage never changes a document, so a candidate whose build added
      no evidence is a candidate again on the next run. */
  lemma {:induction false} BuildAllKeepsDocuments(db: Db, work: seq<CaseWork>, ask: (nat, string) -> Reply,
                                                  maxChars: nat, now: DateTime, parseIso: string -> Option<DateTime>)
    requires WorkIn(work, |db.documents|) && SourcesValid(db)
    ensures var r := BuildAll(db, work, ask, maxChars, now, parseIso);
            r.documents == db.documents && r.files == db.files && r.sources == db.sources
            && |r.evidence| >= |db.evidence| && r.evidence[..|db.evidence|] == db.evidence
    decreases |work|
  {
    if work != [] {
      var front := work[..|work| - 1];
      BuildAllKeepsDocuments(db, front, ask, maxChars, now, parseIso);
      var q := BuildAll(db, front, ask, maxChars, now, parseIso);
      var r := BuildAll(db, work, ask, maxChars, now, parseIso);
      assert r.evidence[..|q.evidence|] == q.evidence;
      assert r.evidence[..|db.evidence|] == q.evidence[..|db.evidence|];
    }
  }

  /** After a run, a document is a candidate exactly when it was one before
      and the run gave it no evidence. */
  lemma CandidateAgain(db: Db, apiKey: string, ask: (nat, string) -> Reply, maxTokens: nat, now: DateTime,
                       parseIso: string -> Option<DateTime>, i: nat)
    requires SourcesValid(db) && i < |db.documents|
    ensures var r := AfterBuild(db, apiKey, ask, maxTokens, now, parseIso);
            i < |r.documents| && (IsCandidate(r, i) <==> IsCandidate(db, i) && !HasEvidence(r.evidence, i + 1))
  {
    var r := AfterBuild(db, apiKey, ask, maxTokens, now, parseIso);
    if apiKey != "" {
      BuildAllKeepsDocuments(db, Candidates(db), ask, maxTokens * Triage.CharsPerToken, now, parseIso);
      if HasEvidence(db.evidence, i + 1) {
        var k :| 0 <= k < |db.evidence| && db.evidence[k].documentId == Some(i + 1);
        assert r.evidence[k] == db.evidence[k];
      }
    }
  }

  /** Triage never stores a score, so documents that reach the case
      builder through discovery (which stores none) are never candidates. */
  lemma NoCasesAfterTriage(db: Db, apiKey: string, ask: (nat, string) -> Triage.Reply, maxTokens: nat)
    requires forall j :: 0 <= j < |db.documents| ==> db.documents[j].triageScore.None?
    ensures Candidates(Triage.AfterTriage(db, apiKey, ask, maxTokens).db) == []
  {
    var t := Triage.AfterTriage(db, apiKey, ask, maxTokens).db;
    forall j | 0 <= j < |t.documents|
      ensures t.documents[j].triageScore.None?
    {
      Triage.TriageNeverScores(db, apiKey, ask, maxTokens, j);
    }
    NoScoreNoCandidates(t, |t.documents|);
  }

  // ---------------------------------------------------------- methods

  /** The evidence loop of `build_case`. */
  method AddEvidence(store: Store, caseId: nat, documentId: nat, sourceUrl: string, items: seq<EvidenceItem>)
    modifies store
    ensures store.Snapshot()
              == old(store.Snapshot()).(evidence := old(store.evidence) + EvidenceRows(caseId, documentId, sourceUrl, items))
  {
    ghost var db0 := store.Snapshot();
    var i := 0;
    while i < |items|
      invariant 0 <= i <= |items|
      invariant store.Snapshot() == db0.(evidence := db0.evidence + EvidenceRows(caseId, documentId, sourceUrl, items[..i]))
    {
      var ev := items[i];
      store.evidence := store.evidence + [EvidenceRow(caseId, None, Some(documentId), ev.page, ev.snippet, sourceUrl)];
      assert EvidenceRows(caseId, documentId, sourceUrl, items[..i + 1])
               == EvidenceRows(caseId, documentId, sourceUrl, items[..i]) + [EvidenceRow(caseId, None, Some(documentId), ev.page, ev.snippet, sourceUrl)];
      i := i + 1;
    }
    assert items[..i] == items;
  }

  /** The timeline loop of `build_case`. */
  method AddTimeline(store: Store, caseId: nat, items: seq<TimelineItem>, parseIso: string -> Option<DateTime>)
    modifies store
    ensures store.Snapshot() == old(store.Snapshot()).(events := old(store.events) + TimelineEvents(caseId, items, parseIso))
  {
    ghost var db0 := store.Snapshot();
    var i := 0;
    while i < |items|
      invariant 0 <= i <= |items|
      invariant store.Snapshot() == db0.(events := db0.events + TimelineEvents(caseId, items[..i], parseIso))
    {
      var item := items[i];
      var event := CaseEventRow(caseId, "timeline", parseIso(item.date), DescriptionPayload(item.event));
      store.events := store.events + [event];
      assert TimelineEvents(caseId, items[..i + 1], parseIso) == TimelineEvents(caseId, items[..i], parseIso) + [event];
      i := i + 1;
    }
    assert items[..i] == items;
  }

  /** `build_case` for one work item. */
  method BuildCase(store: Store, w: CaseWork, reply: Reply, now: DateTime, parseIso: string -> Option<DateTime>)
    requires IdIn(w.id, |store.documents|) && SourcesValid(store.Snapshot())
    modifies store
    ensures store.Snapshot() == BuildOne(old(store.Snapshot()), w, reply, now, parseIso)
  {
    if reply.Raised? {
      return;
    }
    store.usage := store.usage + [CaseUsage(w.id, reply.promptTokens, reply.completionTokens)];
    if reply.result.None? {
      return;
    }
    var res := reply.result.value;
    var existing := FindMatchingCase(store.cases, res.permitNumber);
    if existing.Some? {
      MergeCase(store, w, res, existing.value, now);
    } else {
      CreateCase(store, w, res, now, parseIso);
    }
  }

  /** The merge path of `build_case`. */
  method MergeCase(store: Store, w: CaseWork, res: CaseResult, m: nat, now: DateTime)
    requires IdIn(w.id, |store.documents|) && IdIn(m, |store.cases|)
    modifies store
    ensures store.Snapshot()
              == old(store.Snapshot()).(
                   cases := old(store.cases)[m - 1 := old(store.cases)[m - 1].(updatedAt := now)],
                   evidence := old(store.evidence) + EvidenceRows(m, w.id, old(store.documents)[w.id - 1].sourceUrl, res.evidence),
                   events := old(store.events) + [CaseEventRow(m, "evidence_added", Some(now), DocumentPayload(w.id))])
  {
    var doc := store.documents[w.id - 1];
    store.cases := store.cases[m - 1 := store.cases[m - 1].(updatedAt := now)];
    AddEvidence(store, m, w.id, doc.sourceUrl, res.evidence);
    store.events := store.events + [CaseEventRow(m, "evidence_added", Some(now), DocumentPayload(w.id))];
  }

  /** The new-case path of `build_case`. */
  method CreateCase(store: Store, w: CaseWork, res: CaseResult, now: DateTime, parseIso: string -> Option<DateTime>)
    requires IdIn(w.id, |store.documents|) && SourcesValid(store.Snapshot())
    modifies store
    ensures var doc := old(store.documents)[w.id - 1];
            var c := |old(store.cases)| + 1;
            store.Snapshot()
              == old(store.Snapshot()).(
                   cases := old(store.cases) + [NewCase(doc.title, old(store.sources)[doc.sourceId - 1].municipality,
                                                        w.categories, res, now)],
                   evidence := old(store.evidence) + EvidenceRows(c, w.id, doc.sourceUrl, res.evidence),
                   events := old(store.events) + TimelineEvents(c, res.timeline, parseIso))
  {
    var doc := store.documents[w.id - 1];
    var municipality := store.sources[doc.sourceId - 1].municipality;
    store.cases := store.cases + [NewCase(doc.title, municipality, w.categories, res, now)];
    var c := |store.cases|;
    AddEvidence(store, c, w.id, doc.sourceUrl, res.evidence);
    AddTimeline(store, c, res.timeline, parseIso);
  }

  /** The build loop of `run()`; a call that raises is skipped. */
  method BuildCases(store: Store, work: seq<CaseWork>, ask: (nat, string) -> Reply, maxChars: nat, now: DateTime,
                    parseIso: string -> Option<DateTime>)
    requires WorkIn(work, |store.documents|) && SourcesValid(store.Snapshot())
    modifies store
    ensures store.Snapshot() == BuildAll(old(store.Snapshot()), work, ask, maxChars, now, parseIso)
  {
    ghost var db0 := store.Snapshot();
    var i := 0;
    while i < |work|
      invariant 0 <= i <= |work|
      invariant WorkIn(work[..i], |db0.documents|)
      invariant store.Snapshot() == BuildAll(db0, work[..i], ask, maxChars, now, parseIso)
    {
      assert work[..i + 1][..i] == work[..i];
      BuildAllKeepsDocuments(db0, work[..i], ask, maxChars, now, parseIso);
      var w := work[i];
      BuildCase(store, w, ask(w.id, Triage.TruncateText(w.text, maxChars)), now, parseIso);
      i := i + 1;
    }
    assert work[..i] == work;
  }

  /** The selection loop of `run()`. */
  method SelectCandidates(store: Store) returns (work: seq<CaseWork>)
    ensures work == Candidates(store.Snapshot())
  {
    ghost var db := store.Snapshot();
    work := [];
    var i := 0;
    while i < |store.documents|
      invariant 0 <= i <= |store.documents|
      invariant work == CandidatesUpTo(db, i)
    {
      var doc := store.documents[i];
      if doc.status == Processed && doc.triageScore.Some? && doc.triageScore.value >= 0.6
         && !HasEvidence(store.evidence, i + 1) {
        var text := Triage.CombinedText(store.files, i + 1);
        if text != "" {
          work := work + [CaseWork(i + 1, text, CategoriesOf(doc))];
        }
      }
      i := i + 1;
    }
  }

  /** `run()`. */
  method Run(store: Store, apiKey: string, ask: (nat, string) -> Reply, maxTokens: nat, now: DateTime,
             parseIso: string -> Option<DateTime>)
    requires SourcesValid(store.Snapshot())
    modifies store
    ensures store.Snapshot() == AfterBuild(old(store.Snapshot()), apiKey, ask, maxTokens, now, parseIso)
  {
    if apiKey == "" {
      return;
    }
    var work := SelectCandidates(store);
    if work == [] {
      return;
    }
    BuildCases(store, work, ask, maxTokens * Triage.CharsPerToken, now, parseIso);
  }
}
