/** The extract stage: every stored file whose text is pending or queued
    for OCR advances one step of its text state machine. Whether the
    stored copy exists, the text extractor and the OCR engine are oracles
    keyed by file id; `None` from an oracle is the exception it raises. */
module ExtractStage {
  import opened Wrappers
  import opened Text
  import opened Models
  import opened Database

  /** `pdf_path.exists()`, `extract_text_from_pdf` and `ocr_pdf`. */
  datatype Oracles = Oracles(
    present: nat -> bool,
    extract: nat -> Option<string>,
    ocr: nat -> Option<string>)

  /** Stripped text shorter than this may mean a scanned document. */
  const MinTextChars := 100
  /** A file larger than this with too little text is queued for OCR. */
  const ScannedBytes := 10000

  /** The work set: stored, and text pending or queued for OCR. */
  predicate Selected(f: FileRow) {
    f.storagePath.Some? && f.textStatus in {Pending, OcrQueued}
  }

  /** `len(text.strip()) < 100 and file.bytes and file.bytes > 10000`. */
  predicate LooksScanned(text: string, bytes: Option<nat>) {
    |Strip(text)| < MinTextChars && bytes.Some? && bytes.value != 0 && bytes.value > ScannedBytes
  }

  /** The transitions one run can make: a missing copy fails; pending text
      is extracted, queued for OCR or fails; queued text is OCR'd or fails. */
  predicate Transition(a: TextStatus, b: TextStatus) {
    b == Failed
    || (a == Pending && b in {Extracted, OcrQueued})
    || (a == OcrQueued && b == OcrDone)
    || (a !in {Pending, OcrQueued} && b == a)
  }

  /** The loop body for one file. Only the text columns change, along one
      transition, and text is stored only with a finished status. */
  function Step(f: FileRow, id: nat, o: Oracles): (r: FileRow)
    ensures r == f.(textStatus := r.textStatus, textContent := r.textContent)
    ensures Transition(f.textStatus, r.textStatus)
    ensures r.textContent != f.textContent ==> r.textStatus in {Extracted, OcrDone}
  {
    if !o.present(id) then f.(textStatus := Failed)
    else if f.textStatus == Pending then
      match o.extract(id)
      case None => f.(textStatus := Failed)
      case Some(text) =>
        if LooksScanned(text, f.bytes) then f.(textStatus := OcrQueued)
        else f.(textContent := Some(text), textStatus := Extracted)
    else if f.textStatus == OcrQueued then
      match o.ocr(id)
      case None => f.(textStatus := Failed)
      case Some(text) => f.(textContent := Some(text), textStatus := OcrDone)
    else f
  }

  /** A present pending file is queued for OCR exactly when its extraction
      succeeds with too little text for its size. */
  lemma QueuedForOcrExactly(f: FileRow, id: nat, o: Oracles)
    requires f.textStatus == Pending && o.present(id)
    ensures Step(f, id, o).textStatus == OcrQueued <==>
              o.extract(id).Some? && LooksScanned(o.extract(id).value, f.bytes)
  {
  }

  /** A file without a size, or of at most 10000 bytes, is never queued for
      OCR, even with no text at all. */
  lemma SmallFileNeverQueued(f: FileRow, id: nat, o: Oracles)
    requires f.bytes.None? || f.bytes.value <= ScannedBytes
    ensures Step(f, id, o).textStatus != OcrQueued
  {
  }

  /** A present pending file with enough text, or too small to be a scan,
      keeps the extracted text. */
  lemma ExtractedKeepsText(f: FileRow, id: nat, o: Oracles, text: string)
    requires f.textStatus == Pending && o.present(id) && o.extract(id) == Some(text)
    requires |Strip(text)| >= MinTextChars || f.bytes.None? || f.bytes.value <= ScannedBytes
    ensures Step(f, id, o) == f.(textContent := Some(text), textStatus := Extracted)
  {
  }

  /** A queued file takes the OCR text, or fails when OCR raises. */
  lemma OcrOutcome(f: FileRow, id: nat, o: Oracles)
    requires f.textStatus == OcrQueued && o.present(id)
    ensures Step(f, id, o)
              == match o.ocr(id)
                 case None => f.(textStatus := Failed)
                 case Some(text) => f.(textContent := Some(text), textStatus := OcrDone)
  {
  }

  /** The loop over the selected ids. */
  function ExtractAll(files: seq<FileRow>, ids: seq<nat>, o: Oracles): (r: seq<FileRow>)
    requires IdsIn(ids, |files|)
    ensures |r| == |files|
    decreases |ids|
  {
    if ids == [] then files
    else
      var r := ExtractAll(files, ids[..|ids| - 1], o);
      var id := ids[|ids| - 1];
      r[id - 1 := Step(r[id - 1], id, o)]
  }

  /** Each listed file is stepped once, from its state before the loop;
      the other files are untouched. */
  lemma {:induction false} ExtractAllFile(files: seq<FileRow>, ids: seq<nat>, o: Oracles, i: nat)
    requires IdsIn(ids, |files|) && Increasing(ids) && i < |files|
    ensures ExtractAll(files, ids, o)[i] == if i + 1 in ids then Step(files[i], i + 1, o) else files[i]
    decreases |ids|
  {
    if ids != [] {
      var front := ids[..|ids| - 1];
      var last := ids[|ids| - 1];
      ExtractAllFile(files, front, o, i);
      var p := ExtractAll(files, front, o);
      assert ids == front + [last];
      assert (i + 1 in ids) <==> (i + 1 in front || i + 1 == last);
      if last == i + 1 {
        assert i + 1 !in front by {
          if i + 1 in front {
            var k :| 0 <= k < |front| && front[k] == i + 1;
            IncreasingLast(ids, k);
          }
        }
        assert p[i] == files[i];
      } else {
        assert ExtractAll(files, ids, o)[i] == p[i];
      }
    }
  }

  /** The database after `run()`: only the files table changes. */
  function AfterExtract(db: Db, o: Oracles): (r: Db)
    ensures r == db.(files := r.files) && |r.files| == |db.files|
  {
    db.(files := ExtractAll(db.files, IdsWhere(db.files, Selected), o))
  }

  /** Every selected file takes exactly one step; no other file changes. */
  lemma FileAfterExtract(db: Db, o: Oracles, i: nat)
    requires i < |db.files|
    ensures AfterExtract(db, o).files[i] == if Selected(db.files[i]) then Step(db.files[i], i + 1, o) else db.files[i]
  {
    var ids := IdsWhere(db.files, Selected);
    ExtractAllFile(db.files, ids, o, i);
    assert i + 1 in ids ==> Selected(db.files[i]);
  }

  /** One step per run: a file queued for OCR by this run is not OCR'd
      until the next, and OCR text never comes from a pending file. */
  lemma OneStepPerRun(db: Db, o: Oracles, i: nat)
    requires i < |db.files|
    ensures var r := AfterExtract(db, o).files[i];
            (r.textStatus == OcrQueued ==> db.files[i].textStatus in {Pending, OcrQueued})
            && (r.textStatus == OcrDone && db.files[i].textStatus != OcrDone ==> db.files[i].textStatus == OcrQueued)
            && (r.textStatus == OcrQueued && db.files[i].textStatus == OcrQueued ==> !Selected(db.files[i]))
  {
    FileAfterExtract(db, o, i);
  }

  /** Extraction works on files with a stored copy only, and never sets or
      clears the storage path. */
  lemma StoragePathKept(db: Db, o: Oracles, i: nat)
    requires i < |db.files|
    ensures AfterExtract(db, o).files[i].storagePath == db.files[i].storagePath
    ensures db.files[i].storagePath.None? ==> AfterExtract(db, o).files[i] == db.files[i]
  {
    FileAfterExtract(db, o, i);
  }

  // ------------------------------------------------------------ methods

  /** The loop body applied to the stored row. */
  method ExtractFile(store: Store, id: nat, o: Oracles)
    requires IdIn(id, |store.files|)
    modifies store
    ensures store.Snapshot()
              == old(store.Snapshot()).(files := old(store.files)[id - 1 := Step(old(store.files)[id - 1], id, o)])
  {
    var f := store.files[id - 1];
    if !o.present(id) {
      store.files := store.files[id - 1 := f.(textStatus := Failed)];
      return;
    }
    if f.textStatus == Pending {
      var text := o.extract(id);
      if text.None? {
        store.files := store.files[id - 1 := f.(textStatus := Failed)];
      } else if LooksScanned(text.value, f.bytes) {
        store.files := store.files[id - 1 := f.(textStatus := OcrQueued)];
      } else {
        store.files := store.files[id - 1 := f.(textContent := Some(text.value), textStatus := Extracted)];
      }
    } else if f.textStatus == OcrQueued {
      var text := o.ocr(id);
      if text.None? {
        store.files := store.files[id - 1 := f.(textStatus := Failed)];
      } else {
        store.files := store.files[id - 1 := f.(textContent := Some(text.value), textStatus := OcrDone)];
      }
    }
  }

  /** `run()`. */
  method Run(store: Store, o: Oracles)
    modifies store
    ensures store.Snapshot() == AfterExtract(old(store.Snapshot()), o)
  {
    var ids := QueryFiles(store.files, Selected);
    if ids == [] {
      return;
    }
    ExtractFiles(store, ids, o);
  }

  /** The loop of `run()` over the work set, one file at a time. */
  method ExtractFiles(store: Store, ids: seq<nat>, o: Oracles)
    requires IdsIn(ids, |store.files|)
    modifies store
    ensures store.Snapshot() == old(store.Snapshot()).(files := ExtractAll(old(store.files), ids, o))
  {
    ghost var db0 := store.Snapshot();
    var i := 0;
    while i < |ids|
      invariant 0 <= i <= |ids|
      invariant IdsIn(ids[..i], |db0.files|)
      invariant store.Snapshot() == db0.(files := ExtractAll(db0.files, ids[..i], o))
    {
      assert ids[..i + 1][..i] == ids[..i];
      ghost var before := store.files;
      ExtractFile(store, ids[i], o);
      assert store.files == ExtractAll(db0.files, ids[..i + 1], o) by {
        assert before == ExtractAll(db0.files, ids[..i], o);
      }
      i := i + 1;
    }
    assert ids[..i] == ids;
  }
}
