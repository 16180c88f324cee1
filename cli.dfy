/** The admin command line: platform detection from a URL, seeding sources
    from the Lapland spreadsheet, adding one source, and the health report.
    Argument parsing and CSV reading are outside the model: a command
    receives its arguments and the spreadsheet's rows as values. */
module Cli {
  import opened Wrappers
  import opened Text
  import opened Calendar
  import opened Connector
  import opened Models
  import opened Database
  import Discovery

  // ------------------------------------------------- platform detection

  /** `detect_platform(url)`: substring tests on the lower-cased URL, in
      order. */
  function DetectPlatform(url: string): (r: string)
    ensures r in {"cloudnc", "dynasty", "tweb", "web", "unknown"}
    ensures url == "" ==> r == "unknown"
  {
    if url == "" then "unknown"
    else
      var l := Lower(url);
      if Contains(l, "cloudnc.fi") then "cloudnc"
      else if Contains(l, "oncloudos.com") then "dynasty"
      else if Contains(l, "dynasty") then "dynasty"
      else if Contains(l, "tweb") || Contains(l, "ktweb") then "tweb"
      else if Contains(l, ".fi") then "web"
      else "unknown"
  }

  /** A URL naming "ktweb" names "tweb", so the second test of the tweb
      branch never decides anything. */
  lemma KtwebSubsumed(l: string)
    ensures Contains(l, "ktweb") ==> Contains(l, "tweb")
  {
    if Contains(l, "ktweb") {
      assert At("ktweb", "tweb", 1);
      ContainsTransitive(l, "ktweb", "tweb");
    }
  }

  /** Each platform is detected exactly when its test is the first that
      passes. */
  lemma DetectPlatformCases(url: string)
    ensures var l := Lower(url);
            (DetectPlatform(url) == "cloudnc" <==> Contains(l, "cloudnc.fi"))
            && (DetectPlatform(url) == "dynasty" <==>
                  !Contains(l, "cloudnc.fi") && (Contains(l, "oncloudos.com") || Contains(l, "dynasty")))
            && (DetectPlatform(url) == "tweb" <==>
                  !Contains(l, "cloudnc.fi") && !Contains(l, "oncloudos.com") && !Contains(l, "dynasty")
                  && Contains(l, "tweb"))
            && (DetectPlatform(url) == "web" <==>
                  !Contains(l, "cloudnc.fi") && !Contains(l, "oncloudos.com") && !Contains(l, "dynasty")
                  && !Contains(l, "tweb") && Contains(l, ".fi"))
  {
    KtwebSubsumed(Lower(url));
  }

  /** Only three of the detected platforms have a connector: a source
      detected as "web" or "unknown" is reported unsupported by discovery. */
  lemma DetectedSupported(url: string)
    ensures Discovery.Supported(DetectPlatform(url)) <==> DetectPlatform(url) in {"cloudnc", "dynasty", "tweb"}
  {
  }

  // ----------------------------------------------------- CSV seeding

  /** One spreadsheet row: the "Kunta" cell and the other cells by header. */
  datatype CsvRow = CsvRow(kunta: string, columns: map<string, string>)

  /** The headers of the first two URL columns: agendas and minutes. */
  const AgendaHeader := "Esityslistat"
  const MinutesHeader := "Pöytäkirjat"

  /** `row.get(header, '').strip()`. */
  function CellText(row: CsvRow, header: string): (r: string)
    ensures header !in row.columns ==> r == ""
  {
    Strip(if header in row.columns then row.columns[header] else "")
  }

  /** One URL cell with its row's municipality and its column's type. */
  datatype UrlCell = UrlCell(municipality: string, sourceType: string, url: string)

  /** The URL columns in order, each with the source type it records and
      its header. */
  const UrlColumns: seq<(string, string)> := [
    ("esityslistat", AgendaHeader), ("poytakirjat", MinutesHeader), ("viranhaltija", "Viranhaltijapäätökset"),
    ("kuulutukset", "Kuulutukset"), ("kaavat", "Kaavat")]

  /** The number of URL columns. */
  const ColumnCount := |UrlColumns|

  /** The cells of `row` under `columns`, with municipality `m`. */
  function CellsOf(m: string, row: CsvRow, columns: seq<(string, string)>): (r: seq<UrlCell>)
    ensures |r| == |columns|
    decreases |columns|
  {
    if columns == [] then []
    else [UrlCell(m, columns[0].0, CellText(row, columns[0].1))] + CellsOf(m, row, columns[1..])
  }

  /** Cell `j` comes from column `j`. */
  lemma {:induction false} CellsOfAt(m: string, row: CsvRow, columns: seq<(string, string)>, j: nat)
    requires j < |columns|
    ensures CellsOf(m, row, columns)[j] == UrlCell(m, columns[j].0, CellText(row, columns[j].1))
    decreases |columns|
  {
    var head := [UrlCell(m, columns[0].0, CellText(row, columns[0].1))];
    var rest := CellsOf(m, row, columns[1..]);
    assert CellsOf(m, row, columns) == head + rest;
    if j > 0 {
      CellsOfAt(m, row, columns[1..], j - 1);
      assert columns[1..][j - 1] == columns[j];
      assert (head + rest)[j] == rest[j - 1];
    }
  }

  /** The cells the inner loop visits for a row. */
  function RowCells(row: CsvRow): (r: seq<UrlCell>)
    ensures |r| == ColumnCount
  {
    CellsOf(Strip(row.kunta), row, UrlColumns)
  }

  /** Cell `j` of a row holds the row's municipality, column `j`'s type
      and the stripped text under column `j`'s header. */
  lemma RowCellAt(row: CsvRow, j: nat)
    requires j < ColumnCount
    ensures RowCells(row)[j] == UrlCell(Strip(row.kunta), UrlColumns[j].0, CellText(row, UrlColumns[j].1))
  {
    CellsOfAt(Strip(row.kunta), row, UrlColumns, j);
  }

  /** The cells both loops visit, row after row. */
  function AllCells(rows: seq<CsvRow>): (r: seq<UrlCell>)
    ensures |r| == |rows| * ColumnCount
    decreases |rows|
  {
    if rows == [] then [] else AllCells(rows[..|rows| - 1]) + RowCells(rows[|rows| - 1])
  }

  /** Cell `j` of row `k` is visited in row-major order. */
  lemma {:induction false} AllCellsAt(rows: seq<CsvRow>, k: nat, j: nat)
    requires k < |rows| && j < ColumnCount
    ensures k * ColumnCount + j < |AllCells(rows)|
    ensures AllCells(rows)[k * ColumnCount + j] == RowCells(rows[k])[j]
    decreases |rows|
  {
    var front := rows[..|rows| - 1];
    assert |AllCells(front)| == (|rows| - 1) * ColumnCount;
    if k < |rows| - 1 {
      AllCellsAt(front, k, j);
      assert rows[k] == front[k];
    } else {
      assert k * ColumnCount + j == |AllCells(front)| + j;
    }
  }

  /** A source row for a spreadsheet URL; its config records the type. */
  function CsvSource(c: UrlCell): (s: SourceRow)
    ensures s.municipality == c.municipality && s.baseUrl == c.url && s.platform == DetectPlatform(c.url)
    ensures s.enabled && s.config == Some(Config(None, [], None, None, Some(c.sourceType)))
  {
    NewSource(c.municipality, DetectPlatform(c.url), c.url, Some(Config(None, [], None, None, Some(c.sourceType))))
  }

  /** Some row has this municipality and base URL. */
  predicate HasSource(sources: seq<SourceRow>, m: string, url: string) {
    exists i :: 0 <= i < |sources| && sources[i].municipality == m && sources[i].baseUrl == url
  }

  /** No two rows share municipality and base URL. */
  predicate NoDuplicateSources(sources: seq<SourceRow>) {
    forall i, j :: 0 <= i < j < |sources| ==>
      sources[i].municipality != sources[j].municipality || sources[i].baseUrl != sources[j].baseUrl
  }

  /** Rows, `added_count` and `skipped_count` while the loops run. */
  datatype CsvTally = CsvTally(sources: seq<SourceRow>, added: nat, skipped: nat)

  /** The number of non-empty URLs among the cells. */
  function Filled(cells: seq<UrlCell>): nat {
    if cells == [] then 0 else Filled(cells[..|cells| - 1]) + (if cells[|cells| - 1].url == "" then 0 else 1)
  }

  /** One cell. An empty URL is passed over; the lookup sees the `n0` rows
      that existed before seeding began, as the session does not flush
      (`flushed == false`), or every row added so far (`flushed == true`). */
  function CsvTry(t: CsvTally, n0: nat, flushed: bool, c: UrlCell): (r: CsvTally)
    requires n0 <= |t.sources|
    ensures r.added + r.skipped == t.added + t.skipped + (if c.url == "" then 0 else 1)
    ensures r.added >= t.added && |r.sources| == |t.sources| + r.added - t.added
    ensures r.sources[..|t.sources|] == t.sources
  {
    var visible := if flushed then t.sources else t.sources[..n0];
    if c.url == "" then t
    else if HasSource(visible, c.municipality, c.url) then t.(skipped := t.skipped + 1)
    else t.(sources := t.sources + [CsvSource(c)], added := t.added + 1)
  }

  /** The loops over the cells. Every non-empty URL is either added or
      skipped. */
  function SeedCells(t: CsvTally, n0: nat, flushed: bool, cells: seq<UrlCell>): (r: CsvTally)
    requires n0 <= |t.sources|
    ensures r.added + r.skipped == t.added + t.skipped + Filled(cells)
    ensures r.added >= t.added && |r.sources| == |t.sources| + r.added - t.added
    decreases |cells|
  {
    if cells == [] then t
    else
      var p := SeedCells(t, n0, flushed, cells[..|cells| - 1]);
      CsvTry(p, n0, flushed, cells[|cells| - 1])
  }

  /** Rows already in the table are never changed. */
  lemma {:induction false} SeedCellsKeepsRows(t: CsvTally, n0: nat, flushed: bool, cells: seq<UrlCell>)
    requires n0 <= |t.sources|
    ensures SeedCells(t, n0, flushed, cells).sources[..|t.sources|] == t.sources
    decreases |cells|
  {
    if cells != [] {
      var p := SeedCells(t, n0, flushed, cells[..|cells| - 1]);
      SeedCellsKeepsRows(t, n0, flushed, cells[..|cells| - 1]);
      var r := CsvTry(p, n0, flushed, cells[|cells| - 1]);
      assert r.sources[..|t.sources|] == r.sources[..|p.sources|][..|t.sources|];
    }
  }

  /** `cmd_seed_lapland()` as written; `None` is the missing spreadsheet,
      which changes nothing. */
  function SeedCsv(sources: seq<SourceRow>, rows: Option<seq<CsvRow>>): CsvTally {
    if rows.None? then CsvTally(sources, 0, 0)
    else SeedCells(CsvTally(sources, 0, 0), |sources|, false, AllCells(rows.value))
  }

  /** The seeding as evidently intended: each lookup also sees the rows the
      run has added. */
  function SeedCsvFlushed(sources: seq<SourceRow>, rows: Option<seq<CsvRow>>): CsvTally {
    if rows.None? then CsvTally(sources, 0, 0)
    else SeedCells(CsvTally(sources, 0, 0), |sources|, true, AllCells(rows.value))
  }

  /** Every row past the first `|s|` has a (municipality, URL) that `s`
      lacks. */
  predicate AddedAbsent(s: seq<SourceRow>, rows: seq<SourceRow>) {
    forall i :: |s| <= i < |rows| ==> !HasSource(s, rows[i].municipality, rows[i].baseUrl)
  }

  /** As written, every added row's (municipality, URL) is absent from the
      table as it was before the run. */
  lemma {:induction false} SeedCellsAddsAbsent(s: seq<SourceRow>, t: CsvTally, cells: seq<UrlCell>)
    requires |s| <= |t.sources| && t.sources[..|s|] == s && AddedAbsent(s, t.sources)
    ensures AddedAbsent(s, SeedCells(t, |s|, false, cells).sources)
    decreases |cells|
  {
    if cells != [] {
      var p := SeedCells(t, |s|, false, cells[..|cells| - 1]);
      SeedCellsAddsAbsent(s, t, cells[..|cells| - 1]);
      SeedCellsKeepsRows(t, |s|, false, cells[..|cells| - 1]);
      assert p.sources[..|s|] == p.sources[..|t.sources|][..|s|];
      var c := cells[|cells| - 1];
      var r := CsvTry(p, |s|, false, c);
      if c.url != "" && !HasSource(s, c.municipality, c.url) {
        assert r.sources == p.sources + [CsvSource(c)];
        forall i | |s| <= i < |r.sources|
          ensures !HasSource(s, r.sources[i].municipality, r.sources[i].baseUrl)
        {
          if i < |p.sources| {
            assert r.sources[i] == p.sources[i];
          }
        }
      } else {
        assert r.sources == p.sources;
      }
    }
  }

  /** As written, a run adds only rows whose (municipality, URL) the table
      lacked before it. */
  lemma SeedCsvAddsAbsent(s: seq<SourceRow>, rows: Option<seq<CsvRow>>)
    ensures AddedAbsent(s, SeedCsv(s, rows).sources)
  {
    if rows.Some? {
      assert s[..|s|] == s;
      SeedCellsAddsAbsent(s, CsvTally(s, 0, 0), AllCells(rows.value));
    }
  }

  /** A source of a prefix is a source of the whole table. */
  lemma HasSourcePrefix(a: seq<SourceRow>, b: seq<SourceRow>, m: string, url: string)
    requires |a| <= |b| && b[..|a|] == a && HasSource(a, m, url)
    ensures HasSource(b, m, url)
  {
    var i :| 0 <= i < |a| && a[i].municipality == m && a[i].baseUrl == url;
    assert b[i] == a[i];
  }

  /** After a run, every non-empty URL of the cells has a source. */
  lemma {:induction false} SeedCellsCovers(t: CsvTally, n0: nat, flushed: bool, cells: seq<UrlCell>, k: nat)
    requires n0 <= |t.sources| && k < |cells| && cells[k].url != ""
    ensures HasSource(SeedCells(t, n0, flushed, cells).sources, cells[k].municipality, cells[k].url)
    decreases |cells|
  {
    var front := cells[..|cells| - 1];
    var p := SeedCells(t, n0, flushed, front);
    var r := SeedCells(t, n0, flushed, cells);
    var c := cells[k];
    if k < |cells| - 1 {
      assert front[k] == c;
      SeedCellsCovers(t, n0, flushed, front, k);
      HasSourcePrefix(p.sources, r.sources, c.municipality, c.url);
    } else {
      var visible := if flushed then p.sources else p.sources[..n0];
      if HasSource(visible, c.municipality, c.url) {
        var i :| 0 <= i < |visible| && visible[i].municipality == c.municipality && visible[i].baseUrl == c.url;
        assert p.sources[i] == visible[i];
      } else {
        assert r.sources[|p.sources|] == CsvSource(c);
      }
    }
  }

  /** When every non-empty URL already has a source, a run adds nothing and
      only counts skips. */
  lemma {:induction false} SeedCellsAllPresent(t: CsvTally, flushed: bool, cells: seq<UrlCell>)
    requires forall k :: 0 <= k < |cells| && cells[k].url != "" ==>
               HasSource(t.sources, cells[k].municipality, cells[k].url)
    ensures SeedCells(t, |t.sources|, flushed, cells) == t.(skipped := t.skipped + Filled(cells))
    decreases |cells|
  {
    if cells != [] {
      var front := cells[..|cells| - 1];
      assert forall k :: 0 <= k < |front| ==> front[k] == cells[k];
      SeedCellsAllPresent(t, flushed, front);
      assert t.sources[..|t.sources|] == t.sources;
    }
  }

  /** Every non-empty URL of the spreadsheet has a source after a run. */
  lemma SeedCsvCovers(s: seq<SourceRow>, rows: seq<CsvRow>, k: nat, j: nat)
    requires k < |rows| && j < ColumnCount && CellText(rows[k], UrlColumns[j].1) != ""
    ensures HasSource(SeedCsv(s, Some(rows)).sources, Strip(rows[k].kunta), CellText(rows[k], UrlColumns[j].1))
  {
    RowCellAt(rows[k], j);
    AllCellsAt(rows, k, j);
    SeedCellsCovers(CsvTally(s, 0, 0), |s|, false, AllCells(rows), k * ColumnCount + j);
  }

  /** Seeding from the same spreadsheet twice: the second run adds nothing
      and skips every non-empty URL. */
  lemma SeedCsvRerun(s: seq<SourceRow>, rows: seq<CsvRow>)
    ensures var once := SeedCsv(s, Some(rows));
            SeedCsv(once.sources, Some(rows)) == CsvTally(once.sources, 0, Filled(AllCells(rows)))
  {
    var once := SeedCsv(s, Some(rows));
    var cells := AllCells(rows);
    forall k | 0 <= k < |cells| && cells[k].url != ""
      ensures HasSource(once.sources, cells[k].municipality, cells[k].url)
    {
      SeedCellsCovers(CsvTally(s, 0, 0), |s|, false, cells, k);
    }
    SeedCellsAllPresent(CsvTally(once.sources, 0, 0), false, cells);
  }

  /** As written, two leading cells with the same new (municipality, URL)
      are both appended, as neither lookup sees the other's row. */
  lemma TwoNewCells(s: seq<SourceRow>, cells: seq<UrlCell>)
    requires |cells| >= 2 && cells[0].url != ""
    requires cells[1].municipality == cells[0].municipality && cells[1].url == cells[0].url
    requires !HasSource(s, cells[0].municipality, cells[0].url)
    ensures var r := SeedCells(CsvTally(s, 0, 0), |s|, false, cells).sources;
            |r| >= |s| + 2 && r[|s|].municipality == r[|s| + 1].municipality == cells[0].municipality
            && r[|s|].baseUrl == r[|s| + 1].baseUrl == cells[0].url && !NoDuplicateSources(r)
  {
    var t0 := CsvTally(s, 0, 0);
    var t1 := CsvTry(t0, |s|, false, cells[0]);
    assert s[..|s|] == s;
    assert t1.sources[..|s|] == s;
    assert SeedCells(t0, |s|, false, cells[..1]) == t1 by {
      assert cells[..1][..0] == [];
    }
    assert SeedCells(t0, |s|, false, cells[..2]) == CsvTry(t1, |s|, false, cells[1]) by {
      assert cells[..2][..1] == cells[..1];
    }
    SeedCellsSplit(t0, |s|, false, cells[..2], cells[2..]);
    SeedCellsKeepsRows(SeedCells(t0, |s|, false, cells[..2]), |s|, false, cells[2..]);
    assert cells[..2] + cells[2..] == cells;
    var r := SeedCells(t0, |s|, false, cells).sources;
    assert r[|s|].municipality == r[|s| + 1].municipality && r[|s|].baseUrl == r[|s| + 1].baseUrl;
  }

  /** As written, a row whose first two URL columns hold the same new URL
      inserts that (municipality, URL) twice. */
  lemma DuplicateWithinRun(s: seq<SourceRow>, row: CsvRow)
    requires CellText(row, AgendaHeader) != "" && CellText(row, AgendaHeader) == CellText(row, MinutesHeader)
    requires !HasSource(s, Strip(row.kunta), CellText(row, AgendaHeader))
    ensures var r := SeedCsv(s, Some([row])).sources;
            |r| >= |s| + 2 && r[|s|].municipality == r[|s| + 1].municipality && r[|s|].baseUrl == r[|s| + 1].baseUrl
            && !NoDuplicateSources(r)
  {
    SeedCsvOne(s, row);
    RowCellAt(row, 0);
    RowCellAt(row, 1);
    TwoNewCells(s, RowCells(row));
  }

  /** A one-row spreadsheet visits that row's cells. */
  lemma SeedCsvOne(s: seq<SourceRow>, row: CsvRow)
    ensures SeedCsv(s, Some([row])) == SeedCells(CsvTally(s, 0, 0), |s|, false, RowCells(row))
  {
    assert [row][..0] == [];
    assert AllCells([row]) == RowCells(row);
  }

  /** Running over `a + b` runs over `b` from where `a` stopped. */
  lemma {:induction false} SeedCellsSplit(t: CsvTally, n0: nat, flushed: bool, a: seq<UrlCell>, b: seq<UrlCell>)
    requires n0 <= |t.sources|
    ensures SeedCells(t, n0, flushed, a + b) == SeedCells(SeedCells(t, n0, flushed, a), n0, flushed, b)
    decreases |b|
  {
    if b == [] {
      assert a + b == a;
    } else {
      SeedCellsSplit(t, n0, flushed, a, b[..|b| - 1]);
      assert (a + b)[..|a + b| - 1] == a + b[..|b| - 1];
    }
  }

  /** The loop of `cmd_seed_lapland` visits the rows in order, each row's
      cells in column order. */
  lemma SeedRowsStep(t: CsvTally, n0: nat, rows: seq<CsvRow>, i: nat)
    requires n0 <= |t.sources| && i < |rows|
    ensures SeedCells(t, n0, false, AllCells(rows[..i + 1]))
            == SeedCells(SeedCells(t, n0, false, AllCells(rows[..i])), n0, false, RowCells(rows[i]))
  {
    assert rows[..i + 1][..i] == rows[..i];
    SeedCellsSplit(t, n0, false, AllCells(rows[..i]), RowCells(rows[i]));
  }

  /** With flushed lookups, seeding never introduces a duplicate
      (municipality, URL) pair. */
  lemma {:induction false} SeedCellsFlushedNoDuplicates(t: CsvTally, n0: nat, cells: seq<UrlCell>)
    requires n0 <= |t.sources| && NoDuplicateSources(t.sources)
    ensures NoDuplicateSources(SeedCells(t, n0, true, cells).sources)
    decreases |cells|
  {
    if cells != [] {
      var p := SeedCells(t, n0, true, cells[..|cells| - 1]);
      SeedCellsFlushedNoDuplicates(t, n0, cells[..|cells| - 1]);
      var c := cells[|cells| - 1];
      if c.url != "" && !HasSource(p.sources, c.municipality, c.url) {
        AppendNewKeepsNoDuplicates(p.sources, CsvSource(c));
      }
    }
  }

  /** Appending a row whose pair is new keeps the table duplicate-free. */
  lemma AppendNewKeepsNoDuplicates(sources: seq<SourceRow>, s: SourceRow)
    requires NoDuplicateSources(sources) && !HasSource(sources, s.municipality, s.baseUrl)
    ensures NoDuplicateSources(sources + [s])
  {
    var r := sources + [s];
    forall i, j | 0 <= i < j < |r|
      ensures r[i].municipality != r[j].municipality || r[i].baseUrl != r[j].baseUrl
    {
      if j == |sources| {
        assert r[i] == sources[i];
      }
    }
  }

  /** The seeding as intended keeps a duplicate-free table duplicate-free. */
  lemma SeedCsvFlushedNoDuplicates(s: seq<SourceRow>, rows: Option<seq<CsvRow>>)
    requires NoDuplicateSources(s)
    ensures NoDuplicateSources(SeedCsvFlushed(s, rows).sources)
  {
    if rows.Some? {
      SeedCellsFlushedNoDuplicates(CsvTally(s, 0, 0), |s|, AllCells(rows.value));
    }
  }

  // ------------------------------------------------------- add-source

  /** The platforms `add-source` accepts. */
  const PlatformChoices := {"cloudnc", "dynasty", "tweb", "pdf"}

  datatype AddOutcome = InvalidChoice | AlreadyExists | Added

  /** Some row has this municipality and platform. */
  predicate HasPlatform(sources: seq<SourceRow>, m: string, platform: string) {
    exists i :: 0 <= i < |sources| && sources[i].municipality == m && sources[i].platform == platform
  }

  /** `cmd_add_source`: a platform outside the choices is refused by the
      argument parser; an existing (municipality, platform) is reported;
      otherwise the enabled source is appended with no config. */
  function AddSource(sources: seq<SourceRow>, m: string, platform: string, url: string)
    : (r: (AddOutcome, seq<SourceRow>))
    ensures r.0 == InvalidChoice <==> platform !in PlatformChoices
    ensures r.0 == AlreadyExists <==> platform in PlatformChoices && HasPlatform(sources, m, platform)
    ensures r.0 != Added ==> r.1 == sources
    ensures r.0 == Added ==> r.1 == sources + [NewSource(m, platform, url, None)]
  {
    if platform !in PlatformChoices then (InvalidChoice, sources)
    else if HasPlatform(sources, m, platform) then (AlreadyExists, sources)
    else (Added, sources + [NewSource(m, platform, url, None)])
  }

  /** After `add-source` the (municipality, platform) pair has a source,
      and adding it again changes nothing. */
  lemma AddSourceIdempotent(sources: seq<SourceRow>, m: string, platform: string, url: string, url2: string)
    requires platform in PlatformChoices
    ensures HasPlatform(AddSource(sources, m, platform, url).1, m, platform)
    ensures var once := AddSource(sources, m, platform, url).1;
            AddSource(once, m, platform, url2) == (AlreadyExists, once)
  {
    var once := AddSource(sources, m, platform, url).1;
    if !HasPlatform(sources, m, platform) {
      assert once[|sources|].municipality == m && once[|sources|].platform == platform;
    }
  }

  /** "pdf" is accepted but has no connector: discovery skips such a source
      with an "Unsupported platform" error. */
  lemma PdfSourceUnsupported(sources: seq<SourceRow>, m: string, url: string)
    requires !HasPlatform(sources, m, "pdf")
    ensures var r := AddSource(sources, m, "pdf", url);
            r.0 == Added && !Discovery.Supported(r.1[|sources|].platform)
  {
  }

  // ------------------------------------------------------------ health

  /** The status column: OK exactly when the source has not failed since
      its last success. */
  function HealthStatus(failures: nat): (r: string)
    ensures r == "✓ OK" <==> failures == 0
  {
    if failures == 0 then "✓ OK" else "✗ " + NatToString(failures) + " fails"
  }

  /** The status names the failure count: different counts read
      differently. */
  lemma HealthStatusInjective(a: nat, b: nat)
    ensures HealthStatus(a) == HealthStatus(b) ==> a == b
  {
    if HealthStatus(a) == HealthStatus(b) && a != 0 && b != 0 {
      var sa, sb := NatToString(a), NatToString(b);
      assert HealthStatus(a) == "✗ " + sa + " fails";
      assert |sa| == |sb|;
      assert sa == HealthStatus(a)[2..2 + |sa|];
      assert sb == HealthStatus(b)[2..2 + |sb|];
      NatToStringInjective(a, b);
    }
  }

  /** One line of the health table; the last success is printed as a date,
      or "Never". */
  datatype HealthLine = HealthLine(municipality: string, platform: string, status: string,
                                   lastSuccess: Option<DateTime>)

  /** The line printed for one source. */
  function HealthLineOf(s: SourceRow): (h: HealthLine)
    ensures h.municipality == s.municipality && h.platform == s.platform && h.lastSuccess == s.lastSuccessAt
    ensures h.status == "✓ OK" <==> s.consecutiveFailures == 0
  {
    HealthLine(s.municipality, s.platform, HealthStatus(s.consecutiveFailures), s.lastSuccessAt)
  }

  /** `cmd_health`: `None` is the "No sources configured" message. */
  function HealthReport(sources: seq<SourceRow>): (r: Option<seq<HealthLine>>)
    ensures r.None? <==> sources == []
    ensures r.Some? ==> |r.value| == |sources|
                        && forall i :: 0 <= i < |sources| ==> r.value[i] == HealthLineOf(sources[i])
  {
    if sources == [] then None else Some(seq(|sources|, i requires 0 <= i < |sources| => HealthLineOf(sources[i])))
  }

  // ------------------------------------------------------------ methods

  /** The (municipality, base_url) lookup as a scan. */
  method FindSource(sources: seq<SourceRow>, m: string, url: string) returns (found: bool)
    ensures found == HasSource(sources, m, url)
  {
    var i := 0;
    while i < |sources|
      invariant 0 <= i <= |sources|
      invariant forall k :: 0 <= k < i ==> sources[k].municipality != m || sources[k].baseUrl != url
    {
      if sources[i].municipality == m && sources[i].baseUrl == url {
        return true;
      }
      i := i + 1;
    }
    return false;
  }

  /** The loop body of `cmd_seed_lapland` for one cell. */
  method TryCell(store: Store, n0: nat, c: UrlCell, added0: nat, skipped0: nat) returns (added: nat, skipped: nat)
    requires n0 <= |store.sources|
    modifies store
    ensures CsvTally(store.sources, added, skipped) == CsvTry(CsvTally(old(store.sources), added0, skipped0), n0, false, c)
    ensures store.Snapshot() == old(store.Snapshot()).(sources := store.sources)
  {
    added, skipped := added0, skipped0;
    if c.url != "" {
      var existing := FindSource(store.sources[..n0], c.municipality, c.url);
      if existing {
        skipped := skipped + 1;
      } else {
        store.sources := store.sources + [CsvSource(c)];
        added := added + 1;
      }
    }
  }

  /** The inner loop of `cmd_seed_lapland` for one row. */
  method SeedRow(store: Store, n0: nat, cells: seq<UrlCell>, added0: nat, skipped0: nat)
    returns (added: nat, skipped: nat)
    requires n0 <= |store.sources|
    modifies store
    ensures CsvTally(store.sources, added, skipped)
              == SeedCells(CsvTally(old(store.sources), added0, skipped0), n0, false, cells)
    ensures store.Snapshot() == old(store.Snapshot()).(sources := store.sources)
  {
    ghost var t0 := CsvTally(store.sources, added0, skipped0);
    added, skipped := added0, skipped0;
    var j := 0;
    while j < |cells|
      invariant 0 <= j <= |cells|
      invariant CsvTally(store.sources, added, skipped) == SeedCells(t0, n0, false, cells[..j])
      invariant store.Snapshot() == old(store.Snapshot()).(sources := store.sources)
    {
      assert cells[..j + 1][..j] == cells[..j];
      added, skipped := TryCell(store, n0, cells[j], added, skipped);
      j := j + 1;
    }
    assert cells[..j] == cells;
  }

  /** `cmd_seed_lapland`; `None` is the missing spreadsheet. */
  method CmdSeedLapland(store: Store, rows: Option<seq<CsvRow>>) returns (added: nat, skipped: nat)
    modifies store
    ensures var t := SeedCsv(old(store.sources), rows);
            store.Snapshot() == old(store.Snapshot()).(sources := t.sources)
            && added == t.added && skipped == t.skipped
  {
    added, skipped := 0, 0;
    if rows.None? {
      return;
    }
    ghost var db0 := store.Snapshot();
    ghost var t0 := CsvTally(db0.sources, 0, 0);
    var n0 := |store.sources|;
    var i := 0;
    while i < |rows.value|
      invariant 0 <= i <= |rows.value|
      invariant CsvTally(store.sources, added, skipped) == SeedCells(t0, n0, false, AllCells(rows.value[..i]))
      invariant store.Snapshot() == db0.(sources := store.sources)
    {
      SeedRowsStep(t0, n0, rows.value, i);
      added, skipped := SeedRow(store, n0, RowCells(rows.value[i]), added, skipped);
      i := i + 1;
    }
    assert rows.value[..i] == rows.value;
  }

  /** `cmd_add_source`, with the lookup as a scan. */
  method CmdAddSource(store: Store, m: string, platform: string, url: string) returns (outcome: AddOutcome)
    modifies store
    ensures var r := AddSource(old(store.sources), m, platform, url);
            outcome == r.0 && store.Snapshot() == old(store.Snapshot()).(sources := r.1)
  {
    if platform !in PlatformChoices {
      return InvalidChoice;
    }
    var i := 0;
    while i < |store.sources|
      invariant 0 <= i <= |store.sources|
      invariant forall k :: 0 <= k < i ==> store.sources[k].municipality != m || store.sources[k].platform != platform
    {
      if store.sources[i].municipality == m && store.sources[i].platform == platform {
        return AlreadyExists;
      }
      i := i + 1;
    }
    store.sources := store.sources + [NewSource(m, platform, url, None)];
    return Added;
  }

  /** `cmd_health`: the table's lines, built row by row. */
  method CmdHealth(sources: seq<SourceRow>) returns (report: Option<seq<HealthLine>>)
    ensures report == HealthReport(sources)
  {
    if sources == [] {
      return None;
    }
    var lines: seq<HealthLine> := [];
    var i := 0;
    while i < |sources|
      invariant 0 <= i <= |sources|
      invariant |lines| == i && forall k :: 0 <= k < i ==> lines[k] == HealthLineOf(sources[k])
    {
      lines := lines + [HealthLineOf(sources[i])];
      i := i + 1;
    }
    assert lines == HealthReport(sources).value;
    return Some(lines);
  }
}
