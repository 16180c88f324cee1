/** The `run-pipeline` command: the five stages run in order against one
    database, each stage to completion before the next begins. Everything a
    stage reads from outside the database (the portals, the downloads, the
    text engines, the language model, the clock) is a field of `World`. */
module Pipeline {
  import opened Wrappers
  import opened Calendar
  import opened Models
  import opened Database
  import Connector
  import Discovery
  import FetchStage
  import ExtractStage
  import Triage
  import CaseBuilder

  /** The referential integrity the schema's foreign keys and the
      `(source_id, external_id)` uniqueness constraint guarantee. */
  predicate Integrity(db: Db) {
    KeysValid(db) && Discovery.NoDuplicatePairs(db.documents)
  }

  /** The outside world as the stages see it during one run. */
  datatype World = World(
    env: Connector.Env,
    raised: nat -> Option<string>,
    crashed: nat -> bool,
    download: nat -> Option<FetchStage.Download>,
    text: ExtractStage.Oracles,
    apiKey: string,
    triageAsk: (nat, string) -> Triage.Reply,
    triageMaxTokens: nat,
    caseAsk: (nat, string) -> CaseBuilder.Reply,
    caseMaxTokens: nat,
    parseIso: string -> Option<DateTime>,
    clock: Stage -> DateTime)

  datatype Stage = Discover | Fetch | Extract | TriageStage | Build

  /** The stages in the order the command runs them. */
  const AllStages: seq<Stage> := [Discover, Fetch, Extract, TriageStage, Build]

  /** The stage's name on the command line. */
  function StageName(s: Stage): string {
    match s
    case Discover => "discover"
    case Fetch => "fetch"
    case Extract => "extract"
    case TriageStage => "triage"
    case Build => "build"
  }

  /** The position of a stage in the run order. */
  function Index(s: Stage): (k: nat)
    ensures k < |AllStages| && AllStages[k] == s
  {
    match s
    case Discover => 0
    case Fetch => 1
    case Extract => 2
    case TriageStage => 3
    case Build => 4
  }

  /** The values the argument parser accepts for `--stage`. */
  const StageChoices: set<string> := {"discover", "fetch", "extract", "triage", "build", "all"}

  /** `stage in ("all", name)`. */
  predicate Runs(stage: string, s: Stage) {
    stage == "all" || stage == StageName(s)
  }

  /** The stages the first `n` tests select, in the order they are made. */
  function PlanUpTo(stage: string, n: nat): seq<Stage>
    requires n <= |AllStages|
  {
    if n == 0 then []
    else PlanUpTo(stage, n - 1) + (if Runs(stage, AllStages[n - 1]) then [AllStages[n - 1]] else [])
  }

  /** The stages one invocation runs; `None` when the parser refuses the
      argument. An absent `--stage` means every stage. */
  function StagesFor(arg: Option<string>): (r: Option<seq<Stage>>)
    ensures r.None? <==> arg.Some? && arg.value !in StageChoices
  {
    if arg.Some? && arg.value !in StageChoices then None
    else Some(PlanUpTo(if Truthy(arg) then arg.value else "all", |AllStages|))
  }

  /** With "all", the first `n` tests select the first `n` stages. */
  lemma {:induction false} PlanAllUpTo(n: nat)
    requires n <= |AllStages|
    ensures PlanUpTo("all", n) == AllStages[..n]
  {
    if n > 0 {
      PlanAllUpTo(n - 1);
      assert AllStages[..n] == AllStages[..n - 1] + [AllStages[n - 1]];
    }
  }

  /** Without `--stage`, or with `--stage all`, every stage runs, in order. */
  lemma StagesForAll(arg: Option<string>)
    requires arg == None || arg == Some("all")
    ensures StagesFor(arg) == Some(AllStages)
  {
    PlanAllUpTo(|AllStages|);
    assert AllStages[..|AllStages|] == AllStages;
  }

  /** No two stages share a name, and none is called "all". */
  lemma NamesDistinct(s: Stage, t: Stage)
    ensures StageName(s) != "all"
    ensures StageName(s) == StageName(t) ==> s == t
  {
  }

  /** With a stage's name, the first `n` tests select that stage alone once they reach it. */
  lemma {:induction false} PlanOneUpTo(s: Stage, n: nat)
    requires n <= |AllStages|
    ensures PlanUpTo(StageName(s), n) == if Index(s) < n then [s] else []
  {
    if n > 0 {
      PlanOneUpTo(s, n - 1);
      NamesDistinct(s, AllStages[n - 1]);
    }
  }

  /** A named stage runs alone. */
  lemma StagesForOne(s: Stage)
    ensures StagesFor(Some(StageName(s))) == Some([s])
  {
    PlanOneUpTo(s, |AllStages|);
  }

  /** Every accepted argument is `all` or the name of exactly one stage. */
  lemma AcceptedChoices(arg: Option<string>)
    requires StagesFor(arg).Some?
    ensures arg == None || arg == Some("all") || exists s :: arg == Some(StageName(s))
  {
    if arg.Some? && arg.value != "all" {
      var v := arg.value;
      if v == "discover" { assert v == StageName(Discover); }
      else if v == "fetch" { assert v == StageName(Fetch); }
      else if v == "extract" { assert v == StageName(Extract); }
      else if v == "triage" { assert v == StageName(TriageStage); }
      else { assert v == StageName(Build); }
    }
  }

  // --------------------------------------------------- integrity per stage

  /** The keys of two databases agree: the same rows refer to the same
      rows, and the tables no stage but discovery and case building writes
      are equal. */
  predicate SameKeys(a: Db, b: Db) {
    b.sources == a.sources && b.cases == a.cases && b.events == a.events && b.evidence == a.evidence
    && |b.documents| == |a.documents| && |b.files| == |a.files|
    && (forall j :: 0 <= j < |a.documents| ==>
          b.documents[j].sourceId == a.documents[j].sourceId
          && b.documents[j].externalId == a.documents[j].externalId)
    && (forall i :: 0 <= i < |a.files| ==> b.files[i].documentId == a.files[i].documentId)
  }

  /** Every usage row that names a document names one of the first `n`. */
  predicate UsageIn(usage: seq<UsageRow>, n: nat) {
    forall i :: 0 <= i < |usage| && usage[i].documentId.Some? ==> IdIn(usage[i].documentId.value, n)
  }

  /** A database whose keys agree with an intact one is intact. */
  lemma SameKeysKeepIntegrity(a: Db, b: Db)
    requires Integrity(a) && SameKeys(a, b) && UsageIn(b.usage, |b.documents|)
    ensures Integrity(b)
  {
    forall i, j | 0 <= i < j < |b.documents|
      ensures b.documents[i].sourceId != b.documents[j].sourceId
              || b.documents[i].externalId != b.documents[j].externalId
    {
    }
  }

  /** Discovery keeps the keys valid and the document pairs unique. */
  lemma DiscoverKeepsIntegrity(db: Db, w: World)
    requires Integrity(db)
    ensures Integrity(Discovery.Discovered(db, w.env, w.raised, w.crashed, w.clock(Discover)))
  {
    Discovery.DiscoveredKeepsInvariants(db, w.env, w.raised, w.crashed, w.clock(Discover));
  }

  /** Fetching changes hashes, statuses and storage columns only. */
  lemma FetchKeepsIntegrity(db: Db, w: World)
    requires Integrity(db)
    ensures Integrity(FetchStage.AfterFetch(db, w.download, w.clock(Fetch)))
  {
    var now := w.clock(Fetch);
    var ids := IdsWhere(db.files, FetchStage.Selected);
    var t0 := FetchStage.Rows(db.documents, db.files);
    var t1 := FetchStage.FetchAll(t0, ids, w.download, now);
    var r := FetchStage.AfterFetch(db, w.download, now);
    assert r.documents == FetchStage.MarkAll(t1, ids).documents;
    forall j | 0 <= j < |db.documents|
      ensures r.documents[j].sourceId == db.documents[j].sourceId
              && r.documents[j].externalId == db.documents[j].externalId
    {
      FetchStage.FetchAllDocument(t0, ids, w.download, now, j);
      FetchStage.MarkAllStatus(t1, ids, j);
    }
    forall i | 0 <= i < |db.files| ensures r.files[i].documentId == db.files[i].documentId {
      FetchStage.FetchAllFileDocument(t0, ids, w.download, now, i);
    }
    SameKeysKeepIntegrity(db, r);
  }

  /** Extraction changes the text columns of files only. */
  lemma ExtractKeepsIntegrity(db: Db, w: World)
    requires Integrity(db)
    ensures Integrity(ExtractStage.AfterExtract(db, w.text))
  {
    var r := ExtractStage.AfterExtract(db, w.text);
    forall i | 0 <= i < |db.files| ensures r.files[i].documentId == db.files[i].documentId {
      ExtractStage.FileAfterExtract(db, w.text, i);
    }
    SameKeysKeepIntegrity(db, r);
  }

  /** Every usage row the triage loop appends names a document of the
      table. */
  lemma {:induction false} TriageAllUsageIn(p: Triage.Progress, work: seq<Triage.Work>,
                                            ask: (nat, string) -> Triage.Reply, maxChars: nat)
    requires forall k :: 0 <= k < |work| ==> IdIn(work[k].id, |p.documents|)
    requires UsageIn(p.usage, |p.documents|)
    ensures UsageIn(Triage.TriageAll(p, work, ask, maxChars).usage, |p.documents|)
    decreases |work|
  {
    if work != [] {
      var front := work[..|work| - 1];
      assert forall k :: 0 <= k < |front| ==> front[k] == work[k];
      TriageAllUsageIn(p, front, ask, maxChars);
    }
  }

  /** Triage changes document statuses and appends usage rows. */
  lemma TriageKeepsIntegrity(db: Db, w: World)
    requires Integrity(db)
    ensures Integrity(Triage.AfterTriage(db, w.apiKey, w.triageAsk, w.triageMaxTokens).db)
  {
    if w.apiKey != "" {
      var work := Triage.Ready(db.documents, db.files);
      var p0 := Triage.Progress(db.documents, db.usage, []);
      var maxChars := w.triageMaxTokens * Triage.CharsPerToken;
      var r := Triage.AfterTriage(db, w.apiKey, w.triageAsk, w.triageMaxTokens).db;
      forall j | 0 <= j < |db.documents|
        ensures r.documents[j].sourceId == db.documents[j].sourceId
                && r.documents[j].externalId == db.documents[j].externalId
      {
        Triage.TriageAllKeeps(p0, work, w.triageAsk, maxChars, j);
      }
      TriageAllUsageIn(p0, work, w.triageAsk, maxChars);
      SameKeysKeepIntegrity(db, r);
    }
  }

  /** The build loop keeps every foreign key valid. */
  lemma {:induction false} BuildAllKeepsKeys(db: Db, work: seq<CaseBuilder.CaseWork>,
                                             ask: (nat, string) -> CaseBuilder.Reply, maxChars: nat,
                                             now: DateTime, parseIso: string -> Option<DateTime>)
    requires CaseBuilder.WorkIn(work, |db.documents|) && CaseBuilder.SourcesValid(db) && KeysValid(db)
    ensures KeysValid(CaseBuilder.BuildAll(db, work, ask, maxChars, now, parseIso))
    decreases |work|
  {
    if work != [] {
      var front := work[..|work| - 1];
      var w := work[|work| - 1];
      assert CaseBuilder.WorkIn(front, |db.documents|) by {
        assert forall k :: 0 <= k < |front| ==> front[k] == work[k];
      }
      BuildAllKeepsKeys(db, front, ask, maxChars, now, parseIso);
      CaseBuilder.BuildAllKeepsDocuments(db, front, ask, maxChars, now, parseIso);
      var q := CaseBuilder.BuildAll(db, front, ask, maxChars, now, parseIso);
      CaseBuilder.BuildOneKeepsKeys(q, w, CaseBuilder.ReplyTo(ask, w, maxChars), now, parseIso);
    }
  }

  /** Case building writes cases, events, evidence and usage, and never a
      document. */
  lemma BuildKeepsIntegrity(db: Db, w: World)
    requires Integrity(db)
    ensures CaseBuilder.SourcesValid(db)
    ensures Integrity(CaseBuilder.AfterBuild(db, w.apiKey, w.caseAsk, w.caseMaxTokens, w.clock(Build), w.parseIso))
  {
    if w.apiKey != "" {
      var work := CaseBuilder.Candidates(db);
      var maxChars := w.caseMaxTokens * Triage.CharsPerToken;
      BuildAllKeepsKeys(db, work, w.caseAsk, maxChars, w.clock(Build), w.parseIso);
      CaseBuilder.BuildAllKeepsDocuments(db, work, w.caseAsk, maxChars, w.clock(Build), w.parseIso);
    }
  }

  // ------------------------------------------------------------ the run

  /** One stage's effect on the database. */
  function RunStage(db: Db, s: Stage, w: World): (r: Db)
    requires Integrity(db)
    ensures Integrity(r)
  {
    match s
    case Discover =>
      DiscoverKeepsIntegrity(db, w);
      Discovery.Discovered(db, w.env, w.raised, w.crashed, w.clock(Discover))
    case Fetch =>
      FetchKeepsIntegrity(db, w);
      FetchStage.AfterFetch(db, w.download, w.clock(Fetch))
    case Extract =>
      ExtractKeepsIntegrity(db, w);
      ExtractStage.AfterExtract(db, w.text)
    case TriageStage =>
      TriageKeepsIntegrity(db, w);
      Triage.AfterTriage(db, w.apiKey, w.triageAsk, w.triageMaxTokens).db
    case Build =>
      BuildKeepsIntegrity(db, w);
      CaseBuilder.AfterBuild(db, w.apiKey, w.caseAsk, w.caseMaxTokens, w.clock(Build), w.parseIso)
  }

  /** The stages applied one after another. */
  function RunStages(db: Db, stages: seq<Stage>, w: World): (r: Db)
    requires Integrity(db)
    ensures Integrity(r)
    decreases |stages|
  {
    if stages == [] then db
    else RunStage(RunStages(db, stages[..|stages| - 1], w), stages[|stages| - 1], w)
  }

  /** Running one more stage runs it on what the others left. */
  lemma RunStagesSnoc(db: Db, stages: seq<Stage>, s: Stage, w: World)
    requires Integrity(db)
    ensures RunStages(db, stages + [s], w) == RunStage(RunStages(db, stages, w), s, w)
  {
    assert (stages + [s])[..|stages|] == stages;
  }

  /** The `k`-th test runs its stage on what the earlier ones left. */
  lemma PlanStep(db: Db, stage: string, k: nat, w: World)
    requires Integrity(db) && k < |AllStages|
    ensures RunStages(db, PlanUpTo(stage, k + 1), w)
            == if Runs(stage, AllStages[k]) then RunStage(RunStages(db, PlanUpTo(stage, k), w), AllStages[k], w)
               else RunStages(db, PlanUpTo(stage, k), w)
  {
    if Runs(stage, AllStages[k]) {
      RunStagesSnoc(db, PlanUpTo(stage, k), AllStages[k], w);
    } else {
      assert PlanUpTo(stage, k + 1) == PlanUpTo(stage, k);
    }
  }

  /** One `<stage>.run()` call. */
  method RunStep(store: Store, s: Stage, w: World)
    requires Integrity(store.Snapshot())
    modifies store
    ensures store.Snapshot() == RunStage(old(store.Snapshot()), s, w)
  {
    match s
    case Discover =>
      var _ := Discovery.Run(store, w.env, w.raised, w.crashed, w.clock(Discover));
    case Fetch =>
      FetchStage.Run(store, w.download, w.clock(Fetch));
    case Extract =>
      ExtractStage.Run(store, w.text);
    case TriageStage =>
      var _ := Triage.Run(store, w.apiKey, w.triageAsk, w.triageMaxTokens);
    case Build =>
      BuildKeepsIntegrity(store.Snapshot(), w);
      CaseBuilder.Run(store, w.apiKey, w.caseAsk, w.caseMaxTokens, w.clock(Build), w.parseIso);
  }

  /** `if stage in ("all", name): name.run()` for the `k`-th stage. */
  method RunIf(store: Store, stage: string, k: nat, ghost db0: Db, w: World)
    requires Integrity(db0) && k < |AllStages|
    requires store.Snapshot() == RunStages(db0, PlanUpTo(stage, k), w)
    modifies store
    ensures store.Snapshot() == RunStages(db0, PlanUpTo(stage, k + 1), w)
  {
    PlanStep(db0, stage, k, w);
    if Runs(stage, AllStages[k]) {
      RunStep(store, AllStages[k], w);
    }
  }

  /** The five tests of `cmd_run_pipeline`, one per stage in their fixed
      order, for a stage name. */
  method RunSelected(store: Store, stage: string, w: World)
    requires Integrity(store.Snapshot())
    modifies store
    ensures store.Snapshot() == RunStages(old(store.Snapshot()), PlanUpTo(stage, 5), w)
  {
    ghost var db0 := store.Snapshot();
    for k := 0 to 5
      invariant store.Snapshot() == RunStages(db0, PlanUpTo(stage, k), w)
    {
      RunIf(store, stage, k, db0, w);
    }
  }

  /** `cmd_run_pipeline` behind the argument parser, which refuses a stage
      outside the choices. A refused argument changes nothing. */
  method RunPipeline(store: Store, arg: Option<string>, w: World) returns (refused: bool)
    requires Integrity(store.Snapshot())
    modifies store
    ensures refused <==> StagesFor(arg).None?
    ensures refused ==> store.Snapshot() == old(store.Snapshot())
    ensures !refused ==> store.Snapshot() == RunStages(old(store.Snapshot()), StagesFor(arg).value, w)
    ensures Integrity(store.Snapshot())
  {
    if arg.Some? && arg.value !in StageChoices {
      return true;
    }
    refused := false;
    var stage := if Truthy(arg) then arg.value else "all";
    RunSelected(store, stage, w);
  }
}
