/** The database as a whole: a `Store` object whose fields are the tables
    the pipeline stages update in place, and `Db`, a snapshot of all
    tables as one value, against which the stages are specified. */
module Database {
  import opened Models

  datatype Db = Db(
    sources: seq<SourceRow>,
    documents: seq<DocumentRow>,
    files: seq<FileRow>,
    cases: seq<CaseRow>,
    events: seq<CaseEventRow>,
    evidence: seq<EvidenceRow>,
    usage: seq<UsageRow>)

  /** An id refers to a row of a table of `n` rows. */
  predicate IdIn(id: nat, n: nat) { 1 <= id <= n }

  /** Every foreign key names an existing row. */
  predicate KeysValid(db: Db) {
    (forall i :: 0 <= i < |db.documents| ==> IdIn(db.documents[i].sourceId, |db.sources|))
    && FileKeysValid(db)
    && (forall i :: 0 <= i < |db.events| ==> IdIn(db.events[i].caseId, |db.cases|))
    && (forall i :: 0 <= i < |db.evidence| ==> IdIn(db.evidence[i].caseId, |db.cases|))
    && (forall i :: 0 <= i < |db.evidence| && db.evidence[i].fileId.Some? ==>
          IdIn(db.evidence[i].fileId.value, |db.files|))
    && (forall i :: 0 <= i < |db.evidence| && db.evidence[i].documentId.Some? ==>
          IdIn(db.evidence[i].documentId.value, |db.documents|))
    && (forall i :: 0 <= i < |db.usage| && db.usage[i].documentId.Some? ==>
          IdIn(db.usage[i].documentId.value, |db.documents|))
  }

  /** Every file belongs to an existing document. */
  predicate FileKeysValid(db: Db) {
    forall i :: 0 <= i < |db.files| ==> IdIn(db.files[i].documentId, |db.documents|)
  }

  /** `session.query(File).filter(...).all()`: the ids of the files that
      satisfy the filter, in table order. */
  function IdsWhere(files: seq<FileRow>, p: FileRow -> bool): (r: seq<nat>)
    ensures forall k :: 0 <= k < |r| ==> IdIn(r[k], |files|) && p(files[r[k] - 1])
    ensures forall k :: 0 <= k < |r| - 1 ==> r[k] < r[k + 1]
    ensures forall i :: 0 <= i < |files| && p(files[i]) ==> i + 1 in r
  {
    if files == [] then []
    else
      var q := IdsWhere(files[..|files| - 1], p);
      assert forall k :: 0 <= k < |files| - 1 ==> files[..|files| - 1][k] == files[k];
      q + (if p(files[|files| - 1]) then [|files|] else [])
  }

  /** Every id of `ids` refers to a row of a table of `n` rows. */
  predicate IdsIn(ids: seq<nat>, n: nat) {
    forall k :: 0 <= k < |ids| ==> IdIn(ids[k], n)
  }

  predicate Increasing(ids: seq<nat>) {
    forall k :: 0 <= k < |ids| - 1 ==> ids[k] < ids[k + 1]
  }

  lemma {:induction false} IncreasingLast(ids: seq<nat>, k: nat)
    requires Increasing(ids) && k < |ids| - 1
    ensures ids[k] < ids[|ids| - 1]
    decreases |ids| - k
  {
    if k < |ids| - 2 {
      IncreasingLast(ids, k + 1);
    }
  }

  /** The filter query as a loop over the table. */
  method QueryFiles(files: seq<FileRow>, p: FileRow -> bool) returns (ids: seq<nat>)
    ensures ids == IdsWhere(files, p)
  {
    ids := [];
    var i := 0;
    while i < |files|
      invariant 0 <= i <= |files|
      invariant ids == IdsWhere(files[..i], p)
    {
      assert files[..i + 1][..i] == files[..i];
      if p(files[i]) {
        ids := ids + [i + 1];
      }
      i := i + 1;
    }
    assert files[..i] == files;
  }

  /** The session's tables. The row with id `k` is at index `k - 1`. */
  class Store {
    var sources: seq<SourceRow>
    var documents: seq<DocumentRow>
    var files: seq<FileRow>
    var cases: seq<CaseRow>
    var events: seq<CaseEventRow>
    var evidence: seq<EvidenceRow>
    var usage: seq<UsageRow>

    /** `init_db()`: every table starts empty. */
    constructor()
      ensures Snapshot() == Db([], [], [], [], [], [], [])
    {
      sources := [];
      documents := [];
      files := [];
      cases := [];
      events := [];
      evidence := [];
      usage := [];
    }

    function Snapshot(): Db
      reads this
    {
      Db(sources, documents, files, cases, events, evidence, usage)
    }
  }
}
