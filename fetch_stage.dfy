/** The fetch stage: download every pending file that has no stored copy,
    record where it was stored, give the document the first content hash,
    and move documents with a downloaded file from "new" to "fetched". */
module FetchStage {
  import opened Wrappers
  import opened Text
  import opened Calendar
  import opened Models
  import opened Database

  /** What `download_file` returns: `(size, content_hash)`. */
  datatype Download = Download(size: nat, hash: string)

  /** The work set: no storage path yet and text status "pending". */
  predicate Selected(f: FileRow) {
    f.storagePath.None? && f.textStatus == Pending
  }

  /** `storage_path.relative_to(storage_base)` for
      `storage_base / str(source_id) / f"{file.id}.pdf"`. */
  function StoragePath(sourceId: nat, fileId: nat): (p: string)
    ensures EndsWith(p, ".pdf") && p != ""
  {
    var p := NatToString(sourceId) + "/" + NatToString(fileId) + ".pdf";
    assert p[|p| - 4..] == ".pdf";
    p
  }

  /** Distinct files of the same source are stored at distinct paths. */
  lemma StoragePathsDistinct(sourceId: nat, a: nat, b: nat)
    ensures StoragePath(sourceId, a) == StoragePath(sourceId, b) ==> a == b
  {
    var s := NatToString(sourceId) + "/";
    var pa := NatToString(a);
    var pb := NatToString(b);
    assert StoragePath(sourceId, a) == s + pa + ".pdf";
    assert StoragePath(sourceId, b) == s + pb + ".pdf";
    if StoragePath(sourceId, a) == StoragePath(sourceId, b) {
      assert |pa| == |pb|;
      assert pa == (s + pa + ".pdf")[|s|..|s| + |pa|];
      assert pb == (s + pb + ".pdf")[|s|..|s| + |pb|];
      NatToStringInjective(a, b);
    }
  }

  /** One file after its download: stored, or failed. (`file.bytes =
      size` and `fetched_at` are set with the path.) */
  function FetchedFile(f: FileRow, sourceId: nat, id: nat, download: nat -> Option<Download>, now: DateTime)
    : (r: FileRow)
    ensures r.documentId == f.documentId && r.url == f.url && r.textContent == f.textContent
    ensures download(id).None? ==> r == f.(textStatus := Failed)
    ensures download(id).Some? ==>
              r.storagePath == Some(StoragePath(sourceId, id)) && r.bytes == Some(download(id).value.size)
              && r.fetchedAt == Some(now) && r.textStatus == f.textStatus
  {
    match download(id)
    case None => f.(textStatus := Failed)
    case Some(d) => f.(storagePath := Some(StoragePath(sourceId, id)), bytes := Some(d.size), fetchedAt := Some(now))
  }

  /** The two tables the stage writes. */
  datatype Rows = Rows(documents: seq<DocumentRow>, files: seq<FileRow>)

  /** Every file belongs to an existing document. */
  predicate Refers(t: Rows) {
    forall i :: 0 <= i < |t.files| ==> IdIn(t.files[i].documentId, |t.documents|)
  }

  /** One iteration of the download loop: the file is stored or failed,
      and its document receives the hash if it has none. */
  function FetchOne(t: Rows, id: nat, download: nat -> Option<Download>, now: DateTime): (r: Rows)
    requires Refers(t) && IdIn(id, |t.files|)
    ensures |r.files| == |t.files| && |r.documents| == |t.documents| && Refers(r)
  {
    var f := t.files[id - 1];
    var j := f.documentId - 1;
    var doc := t.documents[j];
    var files := t.files[id - 1 := FetchedFile(f, doc.sourceId, id, download, now)];
    if download(id).Some? && !Truthy(doc.contentHash) then
      Rows(t.documents[j := doc.(contentHash := Some(download(id).value.hash))], files)
    else Rows(t.documents, files)
  }

  /** The download loop over the selected file ids. */
  function FetchAll(t: Rows, ids: seq<nat>, download: nat -> Option<Download>, now: DateTime): (r: Rows)
    requires Refers(t) && IdsIn(ids, |t.files|)
    ensures |r.files| == |t.files| && |r.documents| == |t.documents| && Refers(r)
    decreases |ids|
  {
    if ids == [] then t
    else FetchOne(FetchAll(t, ids[..|ids| - 1], download, now), ids[|ids| - 1], download, now)
  }

  /** One iteration of the status loop: a stored file's "new" document
      becomes "fetched". */
  function MarkOne(t: Rows, id: nat): (r: Rows)
    requires Refers(t) && IdIn(id, |t.files|)
    ensures r.files == t.files && |r.documents| == |t.documents|
  {
    var f := t.files[id - 1];
    var j := f.documentId - 1;
    if Truthy(f.storagePath) && t.documents[j].status == New then
      Rows(t.documents[j := t.documents[j].(status := Fetched)], t.files)
    else t
  }

  /** The status loop over the selected file ids. */
  function MarkAll(t: Rows, ids: seq<nat>): (r: Rows)
    requires Refers(t) && IdsIn(ids, |t.files|)
    ensures r.files == t.files && |r.documents| == |t.documents|
    decreases |ids|
  {
    if ids == [] then t else MarkOne(MarkAll(t, ids[..|ids| - 1]), ids[|ids| - 1])
  }

  /** The database after `run()`; the other tables are not touched. */
  function AfterFetch(db: Db, download: nat -> Option<Download>, now: DateTime): (r: Db)
    requires FileKeysValid(db)
    ensures r == db.(documents := r.documents, files := r.files)
  {
    var ids := IdsWhere(db.files, Selected);
    var t := MarkAll(FetchAll(Rows(db.documents, db.files), ids, download, now), ids);
    db.(documents := t.documents, files := t.files)
  }

  // ------------------------------------------------------------- lemmas

  /** Only the content hash of a document changes in the download loop. */
  predicate SameButHash(a: DocumentRow, b: DocumentRow) {
    a == b.(contentHash := a.contentHash)
  }

  /** The download loop changes a document's content hash and nothing else of it. */
  lemma {:induction false} FetchAllDocument(t: Rows, ids: seq<nat>, download: nat -> Option<Download>, now: DateTime,
                                            j: nat)
    requires Refers(t) && IdsIn(ids, |t.files|) && j < |t.documents|
    ensures SameButHash(FetchAll(t, ids, download, now).documents[j], t.documents[j])
    decreases |ids|
  {
    if ids != [] {
      FetchAllDocument(t, ids[..|ids| - 1], download, now, j);
    }
  }

  /** One download changes its own file only. */
  lemma FetchOneFile(p: Rows, id: nat, download: nat -> Option<Download>, now: DateTime, i: nat)
    requires Refers(p) && IdIn(id, |p.files|) && i < |p.files|
    ensures FetchOne(p, id, download, now).files[i]
              == if id == i + 1 then FetchedFile(p.files[i], p.documents[p.files[i].documentId - 1].sourceId, id, download, now)
                 else p.files[i]
  {
  }

  /** Each file is changed by its own download only. */
  lemma {:induction false} FetchAllFile(t: Rows, ids: seq<nat>, download: nat -> Option<Download>, now: DateTime,
                                        i: nat)
    requires Refers(t) && IdsIn(ids, |t.files|) && Increasing(ids) && i < |t.files|
    ensures FetchAll(t, ids, download, now).files[i]
              == if i + 1 in ids then
                   FetchedFile(t.files[i], t.documents[t.files[i].documentId - 1].sourceId, i + 1, download, now)
                 else t.files[i]
    decreases |ids|, 1
  {
    if ids != [] {
      var front := ids[..|ids| - 1];
      var last := ids[|ids| - 1];
      assert ids == front + [last];
      assert (i + 1 in ids) <==> (i + 1 in front || i + 1 == last);
      if last == i + 1 {
        FetchAllFileLast(t, ids, download, now, i);
      } else {
        FetchAllFile(t, front, download, now, i);
        FetchOneFile(FetchAll(t, front, download, now), last, download, now, i);
      }
    }
  }

  /** The last download of an increasing list is the first to touch its
      file. */
  lemma {:induction false} FetchAllFileLast(t: Rows, ids: seq<nat>, download: nat -> Option<Download>, now: DateTime,
                                            i: nat)
    requires Refers(t) && IdsIn(ids, |t.files|) && Increasing(ids) && i < |t.files|
    requires ids != [] && ids[|ids| - 1] == i + 1
    ensures FetchAll(t, ids, download, now).files[i]
              == FetchedFile(t.files[i], t.documents[t.files[i].documentId - 1].sourceId, i + 1, download, now)
    decreases |ids|, 0
  {
    var front := ids[..|ids| - 1];
    assert i + 1 !in front by {
      if i + 1 in front {
        var k :| 0 <= k < |front| && front[k] == i + 1;
        IncreasingLast(ids, k);
      }
    }
    FetchAllFile(t, front, download, now, i);
    var p := FetchAll(t, front, download, now);
    FetchOneFile(p, i + 1, download, now, i);
    FetchAllDocument(t, front, download, now, t.files[i].documentId - 1);
  }

  /** A content hash already set is never overwritten; a hash that changes
      comes from a successful download of one of the document's files. */
  lemma {:induction false} FetchAllHash(t: Rows, ids: seq<nat>, download: nat -> Option<Download>, now: DateTime,
                                        j: nat)
    requires Refers(t) && IdsIn(ids, |t.files|) && j < |t.documents|
    ensures var h := FetchAll(t, ids, download, now).documents[j].contentHash;
            (Truthy(t.documents[j].contentHash) ==> h == t.documents[j].contentHash)
            && (h == t.documents[j].contentHash || HashFromDownload(t, ids, download, j, h))
    decreases |ids|
  {
    if ids != [] {
      var front := ids[..|ids| - 1];
      FetchAllHash(t, front, download, now, j);
      var p := FetchAll(t, front, download, now);
      var h := FetchAll(t, ids, download, now).documents[j].contentHash;
      var last := ids[|ids| - 1];
      if h != p.documents[j].contentHash {
        assert p.files[last - 1].documentId == j + 1;
        FetchAllFileDocument(t, front, download, now, last - 1);
        assert HashFromDownload(t, ids, download, j, h) by {
          assert ids[|ids| - 1] == last;
        }
      } else if h != t.documents[j].contentHash {
        var k :| 0 <= k < |front| && t.files[front[k] - 1].documentId == j + 1
                 && download(front[k]).Some? && h == Some(download(front[k]).value.hash);
        assert ids[k] == front[k];
      }
    }
  }

  /** Some download of one of document `j`'s listed files produced `h`. */
  predicate HashFromDownload(t: Rows, ids: seq<nat>, download: nat -> Option<Download>, j: nat, h: Option<string>)
    requires IdsIn(ids, |t.files|)
  {
    exists k :: 0 <= k < |ids| && t.files[ids[k] - 1].documentId == j + 1
                && download(ids[k]).Some? && h == Some(download(ids[k]).value.hash)
  }

  /** Files keep their document in the download loop. */
  lemma {:induction false} FetchAllFileDocument(t: Rows, ids: seq<nat>, download: nat -> Option<Download>,
                                                now: DateTime, i: nat)
    requires Refers(t) && IdsIn(ids, |t.files|) && i < |t.files|
    ensures FetchAll(t, ids, download, now).files[i].documentId == t.files[i].documentId
    decreases |ids|
  {
    if ids != [] {
      FetchAllFileDocument(t, ids[..|ids| - 1], download, now, i);
    }
  }

  /** Some listed file of document `j` has a storage path. */
  function StoredFor(t: Rows, ids: seq<nat>, j: nat): bool
    requires IdsIn(ids, |t.files|)
    decreases |ids|
  {
    if ids == [] then false
    else
      var f := t.files[ids[|ids| - 1] - 1];
      StoredFor(t, ids[..|ids| - 1], j) || (f.documentId == j + 1 && Truthy(f.storagePath))
  }

  /** The status loop moves a "new" document to "fetched" exactly when one
      of the listed files belongs to it and has a storage path. */
  lemma {:induction false} MarkAllStatus(t: Rows, ids: seq<nat>, j: nat)
    requires Refers(t) && IdsIn(ids, |t.files|) && j < |t.documents|
    ensures MarkAll(t, ids).documents[j]
              == if t.documents[j].status == New && StoredFor(t, ids, j)
                 then t.documents[j].(status := Fetched) else t.documents[j]
    decreases |ids|
  {
    if ids != [] {
      MarkAllStatus(t, ids[..|ids| - 1], j);
    }
  }

  /** Some listed file of document `j` was downloaded. */
  function DownloadedFor(t: Rows, ids: seq<nat>, download: nat -> Option<Download>, j: nat): bool
    requires IdsIn(ids, |t.files|)
    decreases |ids|
  {
    if ids == [] then false
    else
      var id := ids[|ids| - 1];
      DownloadedFor(t, ids[..|ids| - 1], download, j) || (t.files[id - 1].documentId == j + 1 && download(id).Some?)
  }

  /** Every listed id is that of a selected file. */
  predicate AllSelected(t: Rows, ids: seq<nat>)
    requires IdsIn(ids, |t.files|)
  {
    forall k :: 0 <= k < |ids| ==> Selected(t.files[ids[k] - 1])
  }

  /** After the download loop, a listed file of the document has a path
      exactly when one of its downloads succeeded. */
  lemma {:induction false} StoredIffDownloaded(t: Rows, all: seq<nat>, n: nat, download: nat -> Option<Download>,
                                               now: DateTime, j: nat)
    requires Refers(t) && IdsIn(all, |t.files|) && Increasing(all) && AllSelected(t, all) && n <= |all|
    ensures StoredFor(FetchAll(t, all, download, now), all[..n], j) == DownloadedFor(t, all[..n], download, j)
    decreases n
  {
    if n > 0 {
      StoredIffDownloaded(t, all, n - 1, download, now, j);
      assert all[..n][..n - 1] == all[..n - 1];
      var id := all[n - 1];
      assert Selected(t.files[id - 1]);
      FetchAllFile(t, all, download, now, id - 1);
      FetchAllFileDocument(t, all, download, now, id - 1);
    }
  }

  /** `DownloadedFor` as a quantifier over the listed ids. */
  lemma {:induction false} DownloadedForExists(t: Rows, ids: seq<nat>, download: nat -> Option<Download>, j: nat)
    requires IdsIn(ids, |t.files|)
    ensures DownloadedFor(t, ids, download, j) <==>
              (exists k :: 0 <= k < |ids| && t.files[ids[k] - 1].documentId == j + 1 && download(ids[k]).Some?)
    decreases |ids|
  {
    if ids != [] {
      var front := ids[..|ids| - 1];
      DownloadedForExists(t, front, download, j);
      if exists k :: 0 <= k < |ids| && t.files[ids[k] - 1].documentId == j + 1 && download(ids[k]).Some? {
        var k :| 0 <= k < |ids| && t.files[ids[k] - 1].documentId == j + 1 && download(ids[k]).Some?;
        if k < |front| {
          assert front[k] == ids[k];
        }
      }
      if DownloadedFor(t, front, download, j) {
        var k :| 0 <= k < |front| && t.files[front[k] - 1].documentId == j + 1 && download(front[k]).Some?;
        assert ids[k] == front[k];
      }
    }
  }

  /** The files after the run are those after the download loop. */
  lemma AfterFetchFiles(db: Db, download: nat -> Option<Download>, now: DateTime)
    requires FileKeysValid(db)
    ensures AfterFetch(db, download, now).files
            == FetchAll(Rows(db.documents, db.files), IdsWhere(db.files, Selected), download, now).files
  {
  }

  /** A file as the run leaves it: as its own download left it when it is
      in the work set, untouched otherwise. */
  function FileAfter(t: Rows, i: nat, download: nat -> Option<Download>, now: DateTime): (r: FileRow)
    requires Refers(t) && i < |t.files|
    ensures !Selected(t.files[i]) ==> r == t.files[i]
  {
    var f := t.files[i];
    if Selected(f) then FetchedFile(f, t.documents[f.documentId - 1].sourceId, i + 1, download, now) else f
  }

  /** Over the work set, the download loop leaves each file as `FileAfter` says. */
  lemma FetchAllWorkSet(t: Rows, ids: seq<nat>, download: nat -> Option<Download>, now: DateTime, i: nat)
    requires Refers(t) && IdsIn(ids, |t.files|) && Increasing(ids) && WorkSet(t.files, ids) && i < |t.files|
    ensures FetchAll(t, ids, download, now).files[i] == FileAfter(t, i, download, now)
  {
    FetchAllFile(t, ids, download, now, i);
    assert (i + 1 in ids) == Selected(t.files[i]);
  }

  /** Each file ends the run as `FileAfter` says. */
  lemma AfterFetchFile(db: Db, download: nat -> Option<Download>, now: DateTime, i: nat)
    requires FileKeysValid(db) && i < |db.files|
    ensures AfterFetch(db, download, now).files[i] == FileAfter(Rows(db.documents, db.files), i, download, now)
  {
    WorkSetOf(db.files);
    AfterFetchFiles(db, download, now);
    FetchAllWorkSet(Rows(db.documents, db.files), IdsWhere(db.files, Selected), download, now, i);
  }

  /** Files outside the work set are not touched. */
  lemma UnselectedUntouched(db: Db, download: nat -> Option<Download>, now: DateTime, i: nat)
    requires FileKeysValid(db) && i < |db.files| && !Selected(db.files[i])
    ensures AfterFetch(db, download, now).files[i] == db.files[i]
  {
    AfterFetchFile(db, download, now, i);
  }

  /** A selected file ends the run as its own download left it (see
      `FetchedFileOutcome`). */
  lemma SelectedFileOutcome(db: Db, download: nat -> Option<Download>, now: DateTime, i: nat)
    requires FileKeysValid(db) && i < |db.files| && Selected(db.files[i])
    ensures AfterFetch(db, download, now).files[i]
            == FetchedFile(db.files[i], db.documents[db.files[i].documentId - 1].sourceId, i + 1, download, now)
  {
    AfterFetchFile(db, download, now, i);
  }

  /** A file is stored at `<source_id>/<file_id>.pdf` with its size and
      fetch time when the download succeeds, and marked failed, still
      without a path, when it fails. */
  lemma FetchedFileOutcome(f: FileRow, sourceId: nat, id: nat, download: nat -> Option<Download>, now: DateTime)
    ensures var r := FetchedFile(f, sourceId, id, download, now);
            match download(id)
            case None => r == f.(textStatus := Failed) && r.storagePath == f.storagePath
            case Some(d) => r == f.(storagePath := Some(StoragePath(sourceId, id)), bytes := Some(d.size), fetchedAt := Some(now))
  {
  }

  /** After a run no file is left in the work set. */
  lemma WorkSetDrained(db: Db, download: nat -> Option<Download>, now: DateTime)
    requires FileKeysValid(db)
    ensures var r := AfterFetch(db, download, now);
            forall i :: 0 <= i < |r.files| ==> !Selected(r.files[i])
  {
    var r := AfterFetch(db, download, now);
    forall i | 0 <= i < |r.files| ensures !Selected(r.files[i]) {
      if Selected(db.files[i]) {
        SelectedFileOutcome(db, download, now, i);
      } else {
        UnselectedUntouched(db, download, now, i);
      }
    }
  }

  /** An existing content hash is kept across the whole run; a new one is
      the hash of a download of one of the document's selected files. */
  lemma HashNeverOverwritten(db: Db, download: nat -> Option<Download>, now: DateTime, j: nat)
    requires FileKeysValid(db) && j < |db.documents|
    ensures var h := AfterFetch(db, download, now).documents[j].contentHash;
            (Truthy(db.documents[j].contentHash) ==> h == db.documents[j].contentHash)
            && (h == db.documents[j].contentHash
                || exists i :: 0 <= i < |db.files| && Selected(db.files[i]) && db.files[i].documentId == j + 1
                               && download(i + 1).Some? && h == Some(download(i + 1).value.hash))
  {
    var t := Rows(db.documents, db.files);
    var ids := IdsWhere(db.files, Selected);
    var mid := FetchAll(t, ids, download, now);
    FetchAllHash(t, ids, download, now, j);
    MarkAllStatus(mid, ids, j);
    var h := AfterFetch(db, download, now).documents[j].contentHash;
    assert h == mid.documents[j].contentHash;
    if h != db.documents[j].contentHash {
      WorkSetOf(db.files);
      HashFromSelected(db, ids, download, j, h);
    }
  }

  /** The ids of the work set are those of the selected files. */
  predicate WorkSet(files: seq<FileRow>, ids: seq<nat>) {
    (forall k :: 0 <= k < |ids| ==> IdIn(ids[k], |files|) && Selected(files[ids[k] - 1]))
    && forall i :: 0 <= i < |files| && Selected(files[i]) ==> i + 1 in ids
  }

  /** The query's ids are increasing and are exactly the work set. */
  lemma WorkSetOf(files: seq<FileRow>)
    ensures var ids := IdsWhere(files, Selected);
            IdsIn(ids, |files|) && Increasing(ids) && WorkSet(files, ids)
  {
  }

  /** A download of the work set, over file indices. */
  lemma HashFromSelected(db: Db, ids: seq<nat>, download: nat -> Option<Download>, j: nat, h: Option<string>)
    requires WorkSet(db.files, ids)
    requires HashFromDownload(Rows(db.documents, db.files), ids, download, j, h)
    ensures exists i :: 0 <= i < |db.files| && Selected(db.files[i]) && db.files[i].documentId == j + 1
                        && download(i + 1).Some? && h == Some(download(i + 1).value.hash)
  {
    var t := Rows(db.documents, db.files);
    var k :| 0 <= k < |ids| && t.files[ids[k] - 1].documentId == j + 1
             && download(ids[k]).Some? && h == Some(download(ids[k]).value.hash);
    var i := ids[k] - 1;
    assert IdIn(ids[k], |db.files|) && Selected(db.files[ids[k] - 1]);
    assert db.files[i] == t.files[i];
  }

  /** File `id` belongs to document `j` and its download produced a
      non-empty hash. */
  predicate GivesHash(files: seq<FileRow>, id: nat, download: nat -> Option<Download>, j: nat)
    requires IdIn(id, |files|)
  {
    files[id - 1].documentId == j + 1 && download(id).Some? && download(id).value.hash != ""
  }

  /** A document without a hash still has none after the download loop
      when none of its listed downloads produced a non-empty hash. */
  lemma {:induction false} FetchAllNoHash(t: Rows, ids: seq<nat>, download: nat -> Option<Download>, now: DateTime,
                                          j: nat)
    requires Refers(t) && IdsIn(ids, |t.files|) && j < |t.documents| && !Truthy(t.documents[j].contentHash)
    requires forall k :: 0 <= k < |ids| ==> !GivesHash(t.files, ids[k], download, j)
    ensures !Truthy(FetchAll(t, ids, download, now).documents[j].contentHash)
    decreases |ids|
  {
    if ids != [] {
      var front := ids[..|ids| - 1];
      var last := ids[|ids| - 1];
      assert forall k :: 0 <= k < |front| ==> front[k] == ids[k];
      FetchAllNoHash(t, front, download, now, j);
      FetchAllFileDocument(t, front, download, now, last - 1);
      assert !GivesHash(t.files, last, download, j);
    }
  }

  /** A document without a hash receives that of the first listed download
      of one of its files that produced a non-empty hash. */
  lemma {:induction false} FetchAllFirstHash(t: Rows, ids: seq<nat>, download: nat -> Option<Download>, now: DateTime,
                                             j: nat, k: nat)
    requires Refers(t) && IdsIn(ids, |t.files|) && j < |t.documents| && !Truthy(t.documents[j].contentHash)
    requires k < |ids| && GivesHash(t.files, ids[k], download, j)
    requires forall m :: 0 <= m < k ==> !GivesHash(t.files, ids[m], download, j)
    ensures FetchAll(t, ids, download, now).documents[j].contentHash == Some(download(ids[k]).value.hash)
    decreases |ids|
  {
    var front := ids[..|ids| - 1];
    var last := ids[|ids| - 1];
    assert forall m :: 0 <= m < |front| ==> front[m] == ids[m];
    FetchAllFileDocument(t, front, download, now, last - 1);
    if k == |ids| - 1 {
      FetchAllNoHash(t, front, download, now, j);
    } else {
      FetchAllFirstHash(t, front, download, now, j, k);
    }
  }

  /** The run gives a document without a hash the hash of the first file in
      the work set, in id order, whose download produced a non-empty hash. */
  lemma HashFromFirstDownload(db: Db, download: nat -> Option<Download>, now: DateTime, j: nat, i: nat)
    requires FileKeysValid(db) && j < |db.documents| && !Truthy(db.documents[j].contentHash)
    requires i < |db.files| && Selected(db.files[i]) && GivesHash(db.files, i + 1, download, j)
    requires forall i' :: 0 <= i' < i && Selected(db.files[i']) ==> !GivesHash(db.files, i' + 1, download, j)
    ensures AfterFetch(db, download, now).documents[j].contentHash == Some(download(i + 1).value.hash)
  {
    var t := Rows(db.documents, db.files);
    var ids := IdsWhere(db.files, Selected);
    WorkSetOf(db.files);
    var k := FirstInWorkSet(db, ids, download, j, i);
    FetchAllFirstHash(t, ids, download, now, j, k);
    MarkAllStatus(FetchAll(t, ids, download, now), ids, j);
  }

  /** The work-set position of a selected file: every earlier position
      holds a smaller id. */
  lemma FirstInWorkSet(db: Db, ids: seq<nat>, download: nat -> Option<Download>, j: nat, i: nat) returns (k: nat)
    requires WorkSet(db.files, ids) && Increasing(ids) && i < |db.files| && Selected(db.files[i])
    requires forall i' :: 0 <= i' < i && Selected(db.files[i']) ==> !GivesHash(db.files, i' + 1, download, j)
    ensures k < |ids| && ids[k] == i + 1
    ensures forall m :: 0 <= m < k ==> !GivesHash(db.files, ids[m], download, j)
  {
    k := SelectedPosition(db, ids, i);
    forall m | 0 <= m < k ensures !GivesHash(db.files, ids[m], download, j) {
      assert Increasing(ids[..k + 1]);
      IncreasingLast(ids[..k + 1], m);
      assert ids[..k + 1][m] == ids[m] && ids[..k + 1][k] == ids[k];
      assert ids[m] - 1 < i && Selected(db.files[ids[m] - 1]);
    }
  }

  /** A document becomes "fetched" exactly when it was "new" and one of its
      selected files was downloaded; every other status is unchanged. */
  lemma StatusAfterFetch(db: Db, download: nat -> Option<Download>, now: DateTime, j: nat)
    requires FileKeysValid(db) && j < |db.documents|
    ensures AfterFetch(db, download, now).documents[j].status
              == if db.documents[j].status == New
                    && exists i :: 0 <= i < |db.files| && Selected(db.files[i]) && db.files[i].documentId == j + 1
                                   && download(i + 1).Some?
                 then Fetched else db.documents[j].status
  {
    var t := Rows(db.documents, db.files);
    var ids := IdsWhere(db.files, Selected);
    var mid := FetchAll(t, ids, download, now);
    MarkAllStatus(mid, ids, j);
    FetchAllDocument(t, ids, download, now, j);
    StoredIffDownloaded(t, ids, |ids|, download, now, j);
    assert ids[..|ids|] == ids;
    DownloadedForExists(t, ids, download, j);
    WorkSetOf(db.files);
    SelectedDownloads(db, ids, download, j);
  }

  /** The downloads of the work set, over file indices. */
  lemma SelectedDownloads(db: Db, ids: seq<nat>, download: nat -> Option<Download>, j: nat)
    requires WorkSet(db.files, ids)
    ensures (exists k :: 0 <= k < |ids| && db.files[ids[k] - 1].documentId == j + 1 && download(ids[k]).Some?)
              <==> exists i :: 0 <= i < |db.files| && Selected(db.files[i]) && db.files[i].documentId == j + 1
                               && download(i + 1).Some?
  {
    if exists i :: 0 <= i < |db.files| && Selected(db.files[i]) && db.files[i].documentId == j + 1
                   && download(i + 1).Some? {
      var i :| 0 <= i < |db.files| && Selected(db.files[i]) && db.files[i].documentId == j + 1 && download(i + 1).Some?;
      var k := SelectedPosition(db, ids, i);
      assert db.files[ids[k] - 1].documentId == j + 1 && download(ids[k]).Some?;
    }
    if exists k :: 0 <= k < |ids| && db.files[ids[k] - 1].documentId == j + 1 && download(ids[k]).Some? {
      var k :| 0 <= k < |ids| && db.files[ids[k] - 1].documentId == j + 1 && download(ids[k]).Some?;
      var i := PositionSelected(db, ids, k);
      assert Selected(db.files[i]) && db.files[i].documentId == j + 1 && download(i + 1).Some?;
    }
  }

  /** Every id of the work set is a selected file's. */
  lemma PositionSelected(db: Db, ids: seq<nat>, k: nat) returns (i: nat)
    requires WorkSet(db.files, ids) && k < |ids|
    ensures i < |db.files| && ids[k] == i + 1 && Selected(db.files[i])
  {
    i := ids[k] - 1;
  }

  /** A selected file's id has a position in the work set. */
  lemma SelectedPosition(db: Db, ids: seq<nat>, i: nat) returns (k: nat)
    requires WorkSet(db.files, ids) && i < |db.files| && Selected(db.files[i])
    ensures k < |ids| && ids[k] == i + 1
  {
    assert i + 1 in ids;
    k :| 0 <= k < |ids| && ids[k] == i + 1;
  }

  // ------------------------------------------------------------ methods

  /** The database with the stage's two tables replaced. */
  function WithRows(db: Db, t: Rows): (r: Db)
    ensures r.documents == t.documents && r.files == t.files
    ensures r.(documents := db.documents, files := db.files) == db
  {
    db.(documents := t.documents, files := t.files)
  }

  /** One iteration of the download loop. */
  method FetchFile(store: Store, id: nat, download: nat -> Option<Download>, now: DateTime)
    requires FileKeysValid(store.Snapshot()) && IdIn(id, |store.files|)
    modifies store
    ensures store.Snapshot()
              == WithRows(old(store.Snapshot()), FetchOne(Rows(old(store.documents), old(store.files)), id, download, now))
  {
    var f := store.files[id - 1];
    var doc := store.documents[f.documentId - 1];
    store.files := store.files[id - 1 := FetchedFile(f, doc.sourceId, id, download, now)];
    match download(id) {
      case Some(d) =>
        if !Truthy(doc.contentHash) {
          store.documents := store.documents[f.documentId - 1 := doc.(contentHash := Some(d.hash))];
        }
      case None =>
    }
  }

  /** The download loop. */
  method FetchFiles(store: Store, ids: seq<nat>, download: nat -> Option<Download>, now: DateTime)
    requires FileKeysValid(store.Snapshot()) && IdsIn(ids, |store.files|)
    modifies store
    ensures store.Snapshot()
              == WithRows(old(store.Snapshot()), FetchAll(Rows(old(store.documents), old(store.files)), ids, download, now))
  {
    ghost var db0 := store.Snapshot();
    ghost var t0 := Rows(db0.documents, db0.files);
    var i := 0;
    while i < |ids|
      invariant 0 <= i <= |ids|
      invariant IdsIn(ids[..i], |db0.files|)
      invariant store.Snapshot() == WithRows(db0, FetchAll(t0, ids[..i], download, now))
    {
      assert ids[..i + 1][..i] == ids[..i];
      FetchFile(store, ids[i], download, now);
      i := i + 1;
    }
    assert ids[..i] == ids;
  }

  /** One iteration of the status loop. */
  method MarkFile(store: Store, id: nat)
    requires FileKeysValid(store.Snapshot()) && IdIn(id, |store.files|)
    modifies store
    ensures store.Snapshot() == WithRows(old(store.Snapshot()), MarkOne(Rows(old(store.documents), old(store.files)), id))
  {
    var f := store.files[id - 1];
    var j := f.documentId - 1;
    if Truthy(f.storagePath) && store.documents[j].status == New {
      store.documents := store.documents[j := store.documents[j].(status := Fetched)];
    }
  }

  /** The status loop. */
  method MarkFiles(store: Store, ids: seq<nat>)
    requires FileKeysValid(store.Snapshot()) && IdsIn(ids, |store.files|)
    modifies store
    ensures store.Snapshot() == WithRows(old(store.Snapshot()), MarkAll(Rows(old(store.documents), old(store.files)), ids))
  {
    ghost var db0 := store.Snapshot();
    ghost var t0 := Rows(db0.documents, db0.files);
    var i := 0;
    while i < |ids|
      invariant 0 <= i <= |ids|
      invariant IdsIn(ids[..i], |db0.files|)
      invariant store.Snapshot() == WithRows(db0, MarkAll(t0, ids[..i]))
    {
      assert ids[..i + 1][..i] == ids[..i];
      MarkFile(store, ids[i]);
      i := i + 1;
    }
    assert ids[..i] == ids;
  }

  /** `run()`. */
  method Run(store: Store, download: nat -> Option<Download>, now: DateTime)
    requires FileKeysValid(store.Snapshot())
    modifies store
    ensures store.Snapshot() == AfterFetch(old(store.Snapshot()), download, now)
  {
    var ids := QueryFiles(store.files, Selected);
    if ids == [] {
      return;
    }
    FetchFiles(store, ids, download, now);
    MarkFiles(store, ids);
  }
}
