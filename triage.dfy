/** The triage stage: every fetched document with extracted text is sent
    to the language model once; the reply is metered in the usage table,
    the document becomes "processed" (or "error"), and documents the model
    calls dominated by environmental content with a score of at least 0.6
    are returned as candidates for case building. The model is an oracle
    keyed by document id and the (truncated) text it is shown. */
module Triage {
  import opened Wrappers
  import opened Text
  import opened Models
  import opened Database

  // ------------------------------------------------------- truncation

  const TruncationMarker := "\n\n[... truncated ...]"

  /** `triage_max_tokens`, and the characters allowed per token. */
  const DefaultMaxTokens := 4000
  const CharsPerToken := 3

  /** `truncate_text`: text that fits is sent unchanged; longer text is cut
      to `maxChars` characters and marked. */
  function TruncateText(text: string, maxChars: nat): (r: string)
    ensures |text| <= maxChars ==> r == text
    ensures |text| > maxChars ==> StartsWith(r, text[..maxChars]) && EndsWith(r, TruncationMarker)
    ensures |r| <= maxChars + |TruncationMarker|
  {
    if |text| <= maxChars then text
    else
      var r := text[..maxChars] + TruncationMarker;
      assert r[..maxChars] == text[..maxChars];
      assert r[|r| - |TruncationMarker|..] == TruncationMarker;
      r
  }

  /** Whatever the truncation, the model is shown the start of the text:
      all of it, or its first `maxChars` characters. */
  lemma TruncateKeepsStart(text: string, maxChars: nat)
    ensures var n := if |text| <= maxChars then |text| else maxChars;
            |TruncateText(text, maxChars)| >= n && TruncateText(text, maxChars)[..n] == text[..n]
  {
  }

  // ------------------------------------------------------------- cost

  datatype Rates = Rates(prompt: real, completion: real)

  /** EUR per token: USD list prices per million tokens times 0.92. */
  const MiniRates := Rates(0.15 * 0.92 / 1000000.0, 0.60 * 0.92 / 1000000.0)
  const LargeRates := Rates(2.50 * 0.92 / 1000000.0, 10.00 * 0.92 / 1000000.0)

  /** `rates.get(model, rates["gpt-4o-mini"])`. */
  function RatesFor(model: string): (r: Rates)
    ensures r.prompt > 0.0 && r.completion > 0.0
    ensures r == MiniRates <==> model != "gpt-4o"
  {
    if model == "gpt-4o" then LargeRates else MiniRates
  }

  /** `estimate_cost`. */
  function EstimateCost(promptTokens: nat, completionTokens: nat, model: string): (r: real)
    ensures r >= 0.0
    ensures promptTokens == 0 && completionTokens == 0 <==> r == 0.0
  {
    var rate := RatesFor(model);
    promptTokens as real * rate.prompt + completionTokens as real * rate.completion
  }

  /** An unknown model is priced as gpt-4o-mini. */
  lemma UnknownModelPricedAsMini(promptTokens: nat, completionTokens: nat, model: string)
    requires model != "gpt-4o-mini" && model != "gpt-4o"
    ensures EstimateCost(promptTokens, completionTokens, model) == EstimateCost(promptTokens, completionTokens, "gpt-4o-mini")
  {
  }

  /** More tokens never cost less. */
  lemma CostMonotone(p1: nat, c1: nat, p2: nat, c2: nat, model: string)
    requires p1 <= p2 && c1 <= c2
    ensures EstimateCost(p1, c1, model) <= EstimateCost(p2, c2, model)
  {
    var rate := RatesFor(model);
    assert p1 as real * rate.prompt <= p2 as real * rate.prompt;
    assert c1 as real * rate.completion <= c2 as real * rate.completion;
  }

  // ---------------------------------------------------------- verdict

  /** The `relevance_score` member of the reply: absent (read as 0), a
      number, or some other JSON value, which the comparison rejects. */
  datatype Score = Absent | Number(value: real) | NotANumber

  /** The parsed reply, with the defaults of `result.get(...)`; `dominated`
      is the truth value of the member. */
  datatype Verdict = Verdict(dominated: bool, score: Score, categories: seq<string>, reason: string)

  /** A call that raises, or a reply with its token counts and its content,
      which is `None` when it is not valid JSON. */
  datatype Reply = Raised | Answered(promptTokens: nat, completionTokens: nat, verdict: Option<Verdict>)

  datatype Class = Signal | Maybe | Noise

  /** The score read from the reply, 0 when absent. */
  function ScoreOf(v: Verdict): real
    requires !v.score.NotANumber?
  {
    if v.score.Absent? then 0.0 else v.score.value
  }

  /** The verdict thresholds; `None` where comparing the score raises. */
  function Classify(v: Verdict): (r: Option<Class>)
    ensures r.None? <==> v.score.NotANumber?
    ensures r == Some(Signal) <==> v.dominated && v.score.Number? && v.score.value >= 0.6
    ensures r == Some(Maybe) <==> !v.score.NotANumber? && !(v.dominated && ScoreOf(v) >= 0.6) && ScoreOf(v) >= 0.4
  {
    if v.score.NotANumber? then None
    else if v.dominated && ScoreOf(v) >= 0.6 then Some(Signal)
    else if ScoreOf(v) >= 0.4 then Some(Maybe)
    else Some(Noise)
  }

  /** A candidate handed to case building. */
  datatype Candidate = Candidate(documentId: nat, text: string, categories: seq<string>, score: real, reason: string)

  // -------------------------------------------------------- selection

  const PartSeparator := "\n\n---\n\n"

  /** The non-empty texts of the document's extracted or OCR'd files, in
      table order. */
  function DocTexts(files: seq<FileRow>, documentId: nat): (r: seq<string>)
    ensures forall k :: 0 <= k < |r| ==> r[k] != ""
    decreases |files|
  {
    if files == [] then []
    else
      var f := files[|files| - 1];
      DocTexts(files[..|files| - 1], documentId)
      + (if f.documentId == documentId && f.textStatus in {Extracted, OcrDone} && Truthy(f.textContent)
         then [f.textContent.value] else [])
  }

  /** The text a document is triaged on. */
  function CombinedText(files: seq<FileRow>, documentId: nat): string {
    Join(DocTexts(files, documentId), PartSeparator)
  }

  /** A document has text exactly when one of its files has. */
  lemma CombinedTextNonEmpty(files: seq<FileRow>, documentId: nat)
    ensures CombinedText(files, documentId) != "" <==>
              exists i :: 0 <= i < |files| && files[i].documentId == documentId
                               && files[i].textStatus in {Extracted, OcrDone} && Truthy(files[i].textContent)
  {
    JoinEmpty(DocTexts(files, documentId), PartSeparator);
    DocTextsNonEmpty(files, documentId);
  }

  lemma {:induction false} DocTextsNonEmpty(files: seq<FileRow>, documentId: nat)
    ensures DocTexts(files, documentId) != [] <==>
              exists i :: 0 <= i < |files| && files[i].documentId == documentId
                               && files[i].textStatus in {Extracted, OcrDone} && Truthy(files[i].textContent)
    decreases |files|
  {
    if files != [] {
      var front := files[..|files| - 1];
      DocTextsNonEmpty(front, documentId);
      if exists i :: 0 <= i < |front| && front[i].documentId == documentId
                     && front[i].textStatus in {Extracted, OcrDone} && Truthy(front[i].textContent) {
        var i :| 0 <= i < |front| && front[i].documentId == documentId
                 && front[i].textStatus in {Extracted, OcrDone} && Truthy(front[i].textContent);
        assert files[i] == front[i];
      }
      if exists i :: 0 <= i < |files| && files[i].documentId == documentId
                     && files[i].textStatus in {Extracted, OcrDone} && Truthy(files[i].textContent) {
        var i :| 0 <= i < |files| && files[i].documentId == documentId
                 && files[i].textStatus in {Extracted, OcrDone} && Truthy(files[i].textContent);
        if i < |front| {
          assert front[i] == files[i];
        }
      }
    }
  }

  /** A work item: a document id and the text it is triaged on. */
  datatype Work = Work(id: nat, text: string)

  /** `docs_with_text`: the fetched documents with non-empty text, in
      table order. */
  function Ready(documents: seq<DocumentRow>, files: seq<FileRow>): (r: seq<Work>)
    ensures forall k :: 0 <= k < |r| ==>
              IdIn(r[k].id, |documents|) && documents[r[k].id - 1].status == Fetched
              && r[k].text == CombinedText(files, r[k].id) && r[k].text != ""
    ensures forall k :: 0 <= k < |r| - 1 ==> r[k].id < r[k + 1].id
    decreases |documents|
  {
    if documents == [] then []
    else
      var n := |documents|;
      var q := Ready(documents[..n - 1], files);
      assert forall k :: 0 <= k < n - 1 ==> documents[..n - 1][k] == documents[k];
      var text := CombinedText(files, n);
      q + (if documents[n - 1].status == Fetched && text != "" then [Work(n, text)] else [])
  }

  /** Every fetched document with non-empty text is in the work list. */
  lemma {:induction false} ReadyComplete(documents: seq<DocumentRow>, files: seq<FileRow>, i: nat)
    requires i < |documents| && documents[i].status == Fetched && CombinedText(files, i + 1) != ""
    ensures exists k :: 0 <= k < |Ready(documents, files)| && Ready(documents, files)[k].id == i + 1
    decreases |documents|
  {
    var n := |documents|;
    var front := documents[..n - 1];
    var q := Ready(front, files);
    var text := CombinedText(files, n);
    assert Ready(documents, files) == q + (if documents[n - 1].status == Fetched && text != "" then [Work(n, text)] else []);
    if i < n - 1 {
      assert front[i] == documents[i];
      ReadyComplete(front, files, i);
      var k :| 0 <= k < |q| && q[k].id == i + 1;
      assert Ready(documents, files)[k] == q[k];
    } else {
      assert n == i + 1;
      assert Ready(documents, files) == q + [Work(n, text)];
      assert Ready(documents, files)[|q|].id == i + 1;
    }
  }

  // ----------------------------------------------------------- triage

  /** What the loop has built so far: the two tables it writes and the
      candidates. */
  datatype Progress = Progress(documents: seq<DocumentRow>, usage: seq<UsageRow>, candidates: seq<Candidate>)

  /** The usage row of one reply, priced as gpt-4o-mini. */
  function TriageUsage(id: nat, promptTokens: nat, completionTokens: nat): (u: UsageRow)
    ensures u.documentId == Some(id) && u.model == "gpt-4o-mini" && u.stage == "triage"
    ensures u.estimatedCostEur == EstimateCost(promptTokens, completionTokens, "gpt-4o-mini")
  {
    UsageRow(Some(id), "gpt-4o-mini", "triage", promptTokens, completionTokens,
             EstimateCost(promptTokens, completionTokens, "gpt-4o-mini"))
  }

  /** The status a reply leaves: "processed" when it parses and its score
      compares, "error" otherwise. */
  function StatusAfter(reply: Reply): DocumentStatus {
    if reply.Answered? && reply.verdict.Some? && Classify(reply.verdict.value).Some? then Processed else Error
  }

  /** One iteration of the triage loop. */
  function TriageOne(p: Progress, w: Work, reply: Reply): (r: Progress)
    requires IdIn(w.id, |p.documents|)
    ensures r.documents == p.documents[w.id - 1 := p.documents[w.id - 1].(status := StatusAfter(reply))]
  {
    var doc := p.documents[w.id - 1];
    var docs := p.documents[w.id - 1 := doc.(status := StatusAfter(reply))];
    match reply
    case Raised => p.(documents := docs)
    case Answered(pt, ct, verdict) =>
      var usage := p.usage + [TriageUsage(w.id, pt, ct)];
      if verdict.Some? && Classify(verdict.value) == Some(Signal) then
        var v := verdict.value;
        Progress(docs, usage, p.candidates + [Candidate(w.id, w.text, v.categories, ScoreOf(v), v.reason)])
      else Progress(docs, usage, p.candidates)
  }

  /** The model's reply to a work item, shown at most `maxChars` characters. */
  function ReplyTo(ask: (nat, string) -> Reply, w: Work, maxChars: nat): Reply {
    ask(w.id, TruncateText(w.text, maxChars))
  }

  /** The triage loop over the work list. */
  function TriageAll(p: Progress, work: seq<Work>, ask: (nat, string) -> Reply, maxChars: nat): (r: Progress)
    requires forall k :: 0 <= k < |work| ==> IdIn(work[k].id, |p.documents|)
    ensures |r.documents| == |p.documents|
    decreases |work|
  {
    if work == [] then p
    else
      var q := TriageAll(p, work[..|work| - 1], ask, maxChars);
      TriageOne(q, work[|work| - 1], ReplyTo(ask, work[|work| - 1], maxChars))
  }

  datatype Triaged = Triaged(db: Db, candidates: seq<Candidate>)

  /** The database after `run()` and the candidates it returns. Without an
      API key nothing happens. */
  function AfterTriage(db: Db, apiKey: string, ask: (nat, string) -> Reply, maxTokens: nat): (r: Triaged)
    ensures r.db == db.(documents := r.db.documents, usage := r.db.usage)
    ensures apiKey == "" ==> r == Triaged(db, [])
  {
    if apiKey == "" then Triaged(db, [])
    else
      var p := TriageAll(Progress(db.documents, db.usage, []), Ready(db.documents, db.files), ask,
                         maxTokens * CharsPerToken);
      Triaged(db.(documents := p.documents, usage := p.usage), p.candidates)
  }

  // ----------------------------------------------------------- lemmas

  /** Two document rows that differ at most in their status. */
  predicate SameButStatus(a: DocumentRow, b: DocumentRow) {
    a == b.(status := a.status)
  }

  /** Triage changes only the status of a document. */
  lemma {:induction false} TriageAllKeeps(p: Progress, work: seq<Work>, ask: (nat, string) -> Reply,
                                          maxChars: nat, j: nat)
    requires forall k :: 0 <= k < |work| ==> IdIn(work[k].id, |p.documents|)
    requires j < |p.documents|
    ensures SameButStatus(TriageAll(p, work, ask, maxChars).documents[j], p.documents[j])
    decreases |work|
  {
    if work != [] {
      TriageAllKeeps(p, work[..|work| - 1], ask, maxChars, j);
    }
  }

  /** A document outside the work list is not touched. */
  lemma {:induction false} TriageAllUntouched(p: Progress, work: seq<Work>, ask: (nat, string) -> Reply,
                                              maxChars: nat, j: nat)
    requires forall k :: 0 <= k < |work| ==> IdIn(work[k].id, |p.documents|)
    requires j < |p.documents| && forall k :: 0 <= k < |work| ==> work[k].id != j + 1
    ensures TriageAll(p, work, ask, maxChars).documents[j] == p.documents[j]
    decreases |work|
  {
    if work != [] {
      var front := work[..|work| - 1];
      assert forall k :: 0 <= k < |front| ==> front[k] == work[k];
      TriageAllUntouched(p, front, ask, maxChars, j);
    }
  }

  /** Each document is triaged once: its status follows the reply to its
      own text. */
  lemma {:induction false} TriageAllStatus(p: Progress, work: seq<Work>, ask: (nat, string) -> Reply,
                                           maxChars: nat, k: nat)
    requires forall i :: 0 <= i < |work| ==> IdIn(work[i].id, |p.documents|)
    requires forall i :: 0 <= i < |work| - 1 ==> work[i].id < work[i + 1].id
    requires k < |work|
    ensures TriageAll(p, work, ask, maxChars).documents[work[k].id - 1].status == StatusAfter(ReplyTo(ask, work[k], maxChars))
    decreases |work|
  {
    var front := work[..|work| - 1];
    var j := work[k].id - 1;
    if k < |work| - 1 {
      assert front[k] == work[k];
      TriageAllStatus(p, front, ask, maxChars, k);
      WorkIncreasing(work, k);
    }
  }

  /** Work ids increase, so every earlier item's id is below the last. */
  lemma {:induction false} WorkIncreasing(work: seq<Work>, k: nat)
    requires forall i :: 0 <= i < |work| - 1 ==> work[i].id < work[i + 1].id
    requires k < |work| - 1
    ensures work[k].id < work[|work| - 1].id
    decreases |work| - k
  {
    if k < |work| - 2 {
      WorkIncreasing(work, k + 1);
    }
  }

  /** The usage table only grows, by one triage row per answered call. */
  lemma {:induction false} TriageAllUsage(p: Progress, work: seq<Work>, ask: (nat, string) -> Reply, maxChars: nat)
    requires forall k :: 0 <= k < |work| ==> IdIn(work[k].id, |p.documents|)
    ensures var r := TriageAll(p, work, ask, maxChars);
            |r.usage| == |p.usage| + Answers(work, ask, maxChars) && r.usage[..|p.usage|] == p.usage
            && forall u :: u in r.usage[|p.usage|..] ==> u.stage == "triage" && u.model == "gpt-4o-mini"
    decreases |work|
  {
    if work != [] {
      var front := work[..|work| - 1];
      TriageAllUsage(p, front, ask, maxChars);
      var q := TriageAll(p, front, ask, maxChars);
      var r := TriageAll(p, work, ask, maxChars);
      if ReplyTo(ask, work[|work| - 1], maxChars).Answered? {
        assert r.usage == q.usage + [r.usage[|r.usage| - 1]];
        assert r.usage[|p.usage|..] == q.usage[|p.usage|..] + [r.usage[|r.usage| - 1]];
      }
    }
  }

  /** The number of answered calls. */
  function Answers(work: seq<Work>, ask: (nat, string) -> Reply, maxChars: nat): nat
    decreases |work|
  {
    if work == [] then 0
    else Answers(work[..|work| - 1], ask, maxChars) + (if ReplyTo(ask, work[|work| - 1], maxChars).Answered? then 1 else 0)
  }

  /** Candidates are exactly the signals, in work order: each is a work
      item whose reply is dominated with a score of at least 0.6. */
  lemma {:induction false} TriageAllCandidates(p: Progress, work: seq<Work>, ask: (nat, string) -> Reply,
                                               maxChars: nat)
    requires forall k :: 0 <= k < |work| ==> IdIn(work[k].id, |p.documents|)
    ensures var r := TriageAll(p, work, ask, maxChars);
            r.candidates == p.candidates + Signals(work, ask, maxChars)
    decreases |work|
  {
    if work != [] {
      TriageAllCandidates(p, work[..|work| - 1], ask, maxChars);
    }
  }

  /** The candidates the replies call for. */
  function Signals(work: seq<Work>, ask: (nat, string) -> Reply, maxChars: nat): (r: seq<Candidate>)
    ensures forall c :: c in r ==> c.score >= 0.6
    ensures forall c :: c in r ==> exists k :: 0 <= k < |work| && work[k].id == c.documentId && work[k].text == c.text
    decreases |work|
  {
    if work == [] then []
    else
      var w := work[|work| - 1];
      var front := Signals(work[..|work| - 1], ask, maxChars);
      assert forall k :: 0 <= k < |work| - 1 ==> work[..|work| - 1][k] == work[k];
      var reply := ReplyTo(ask, w, maxChars);
      front
      + if reply.Answered? && reply.verdict.Some? && Classify(reply.verdict.value) == Some(Signal)
        then [Candidate(w.id, w.text, reply.verdict.value.categories, ScoreOf(reply.verdict.value),
                        reply.verdict.value.reason)]
        else []
  }

  /** Whatever the replies, triage writes only the status: the triage
      score, categories and reason stay as they were. */
  lemma TriageNeverScores(db: Db, apiKey: string, ask: (nat, string) -> Reply, maxTokens: nat, j: nat)
    requires j < |db.documents|
    ensures var d := AfterTriage(db, apiKey, ask, maxTokens).db.documents[j];
            SameButStatus(d, db.documents[j])
            && d.triageScore == db.documents[j].triageScore && d.triageCategories == db.documents[j].triageCategories
            && d.triageReason == db.documents[j].triageReason
  {
    if apiKey != "" {
      TriageAllKeeps(Progress(db.documents, db.usage, []), Ready(db.documents, db.files), ask,
                     maxTokens * CharsPerToken, j);
    }
  }

  /** A fetched document with text is processed or marked "error" by a
      run with an API key; a document without text, or not fetched, keeps
      its status. */
  lemma StatusAfterTriage(db: Db, apiKey: string, ask: (nat, string) -> Reply, maxTokens: nat, j: nat)
    requires apiKey != "" && j < |db.documents|
    ensures var d := AfterTriage(db, apiKey, ask, maxTokens).db.documents[j];
            if db.documents[j].status == Fetched && CombinedText(db.files, j + 1) != "" then
              d.status == StatusAfter(ask(j + 1, TruncateText(CombinedText(db.files, j + 1), maxTokens * CharsPerToken)))
            else d == db.documents[j]
  {
    var work := Ready(db.documents, db.files);
    var p := Progress(db.documents, db.usage, []);
    var r := TriageAll(p, work, ask, maxTokens * CharsPerToken);
    assert AfterTriage(db, apiKey, ask, maxTokens).db.documents == r.documents;
    if db.documents[j].status == Fetched && CombinedText(db.files, j + 1) != "" {
      TriagedStatus(db, work, p, ask, maxTokens * CharsPerToken, j);
    } else {
      UntriagedKept(db, work, p, ask, maxTokens * CharsPerToken, j);
    }
  }

  /** A document in the work list takes the status of the reply to its own text. */
  lemma TriagedStatus(db: Db, work: seq<Work>, p: Progress, ask: (nat, string) -> Reply, maxChars: nat, j: nat)
    requires work == Ready(db.documents, db.files) && p == Progress(db.documents, db.usage, [])
    requires j < |db.documents| && db.documents[j].status == Fetched && CombinedText(db.files, j + 1) != ""
    ensures TriageAll(p, work, ask, maxChars).documents[j].status
              == StatusAfter(ask(j + 1, TruncateText(CombinedText(db.files, j + 1), maxChars)))
  {
    ReadyComplete(db.documents, db.files, j);
    var k :| 0 <= k < |work| && work[k].id == j + 1;
    assert work[k] == Work(j + 1, CombinedText(db.files, j + 1));
    TriageAllStatus(p, work, ask, maxChars, k);
  }

  /** A document outside the work list is left as it was. */
  lemma UntriagedKept(db: Db, work: seq<Work>, p: Progress, ask: (nat, string) -> Reply, maxChars: nat, j: nat)
    requires work == Ready(db.documents, db.files) && p == Progress(db.documents, db.usage, [])
    requires j < |db.documents| && !(db.documents[j].status == Fetched && CombinedText(db.files, j + 1) != "")
    ensures TriageAll(p, work, ask, maxChars).documents[j] == db.documents[j]
  {
    TriageAllUntouched(p, work, ask, maxChars, j);
  }

  // ---------------------------------------------------------- methods

  /** The selection loop. */
  method SelectReady(documents: seq<DocumentRow>, files: seq<FileRow>) returns (work: seq<Work>)
    ensures work == Ready(documents, files)
  {
    work := [];
    var i := 0;
    while i < |documents|
      invariant 0 <= i <= |documents|
      invariant work == Ready(documents[..i], files)
    {
      assert documents[..i + 1][..i] == documents[..i];
      if documents[i].status == Fetched {
        var text := CombinedText(files, i + 1);
        if text != "" {
          work := work + [Work(i + 1, text)];
        }
      }
      i := i + 1;
    }
    assert documents[..i] == documents;
  }

  /** `triage_document` and the verdict, for one work item. */
  method TriageDocument(store: Store, w: Work, candidates: seq<Candidate>, ask: (nat, string) -> Reply,
                        maxChars: nat)
    returns (found: seq<Candidate>)
    requires IdIn(w.id, |store.documents|)
    modifies store
    ensures var p := TriageOne(Progress(old(store.documents), old(store.usage), candidates), w,
                               ReplyTo(ask, w, maxChars));
            store.Snapshot() == old(store.Snapshot()).(documents := p.documents, usage := p.usage)
            && found == p.candidates
  {
    found := candidates;
    var reply := ask(w.id, TruncateText(w.text, maxChars));
    if reply.Answered? {
      store.usage := store.usage + [TriageUsage(w.id, reply.promptTokens, reply.completionTokens)];
      if reply.verdict.Some? {
        var v := reply.verdict.value;
        var verdict := Classify(v);
        if verdict.Some? {
          store.documents := store.documents[w.id - 1 := store.documents[w.id - 1].(status := Processed)];
          if verdict == Some(Signal) {
            found := found + [Candidate(w.id, w.text, v.categories, ScoreOf(v), v.reason)];
          }
          return;
        }
      }
    }
    store.documents := store.documents[w.id - 1 := store.documents[w.id - 1].(status := Error)];
  }

  /** The triage loop over the work list. */
  method TriageDocuments(store: Store, work: seq<Work>, ask: (nat, string) -> Reply, maxChars: nat)
    returns (candidates: seq<Candidate>)
    requires forall k :: 0 <= k < |work| ==> IdIn(work[k].id, |store.documents|)
    modifies store
    ensures var p := TriageAll(Progress(old(store.documents), old(store.usage), []), work, ask, maxChars);
            store.Snapshot() == old(store.Snapshot()).(documents := p.documents, usage := p.usage)
            && candidates == p.candidates
  {
    ghost var db0 := store.Snapshot();
    ghost var p0 := Progress(db0.documents, db0.usage, []);
    candidates := [];
    var i := 0;
    while i < |work|
      invariant 0 <= i <= |work|
      invariant |store.documents| == |db0.documents|
      invariant var p := TriageAll(p0, work[..i], ask, maxChars);
                store.Snapshot() == db0.(documents := p.documents, usage := p.usage) && candidates == p.candidates
    {
      assert work[..i + 1][..i] == work[..i];
      assert work[..i + 1][i] == work[i];
      candidates := TriageDocument(store, work[i], candidates, ask, maxChars);
      i := i + 1;
    }
    assert work[..i] == work;
  }

  /** `run()`. */
  method Run(store: Store, apiKey: string, ask: (nat, string) -> Reply, maxTokens: nat)
    returns (candidates: seq<Candidate>)
    modifies store
    ensures store.Snapshot() == AfterTriage(old(store.Snapshot()), apiKey, ask, maxTokens).db
    ensures candidates == AfterTriage(old(store.Snapshot()), apiKey, ask, maxTokens).candidates
  {
    candidates := [];
    if apiKey == "" {
      return;
    }
    var work := SelectReady(store.documents, store.files);
    if work == [] {
      return;
    }
    candidates := TriageDocuments(store, work, ask, maxTokens * CharsPerToken);
  }
}
