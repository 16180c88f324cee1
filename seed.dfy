/** Seeding the Lapland sources: a fixed table of 24 municipalities and
    regional bodies, each with its platform, base URL and the listing paths
    of its document kinds. Seeding updates the first existing source of the
    same municipality, or adds a new one. */
module Seed {
  import opened Wrappers
  import opened Connector
  import opened Models
  import opened Database
  import Discovery

  /** One entry of the seed table; `paths` keeps the keys in table order. */
  datatype SeedEntry = SeedEntry(municipality: string, platform: string, baseUrl: string,
                                 paths: seq<(string, string)>)

  const CloudNCPaths := [("meetings", "/fi-FI"), ("officer_decisions", "/fi-FI/Viranhaltijat"),
                         ("announcements", "/fi-FI/Kuulutukset")]
  const DynastyMeetings := ("meetings", "/cgi/DREQUEST.PHP?page=meeting_frames")
  const DynastyOfficial := ("officer_decisions", "/cgi/DREQUEST.PHP?page=official_frames")
  const DynastyAnnouncements := ("announcements", "/cgi/DREQUEST.PHP?alo=1&page=announcement_search&tzo=-120")
  const TWebPaths := [("meetings", "/ktwebscr/pk_tek_tweb.htm"), ("agendas", "/ktwebscr/epj_tek_tweb.htm"),
                      ("officer_decisions", "/ktwebscr/vparhaku_tweb.htm"),
                      ("announcements", "/ktwebscr/kuullist_tweb.htm")]

  /** The seed table, in its own order. */
  const LaplandSources: seq<SeedEntry> := [
    SeedEntry("Enontekiö", "cloudnc", "https://enontekio.cloudnc.fi", CloudNCPaths + [("zoning", "/fi-FI/Kaavat")]),
    SeedEntry("Muonio", "cloudnc", "https://muonio.cloudnc.fi", CloudNCPaths),
    SeedEntry("Rovaniemi", "cloudnc", "https://rovaniemi.cloudnc.fi", CloudNCPaths),
    SeedEntry("Inari", "dynasty", "https://inari.oncloudos.com",
              [DynastyMeetings, DynastyOfficial,
               ("announcements", "/cgi/DREQUEST.PHP?alo=1&page=announcement_search&tzo=-180")]),
    SeedEntry("Kemi", "dynasty", "https://kemi.oncloudos.com", [DynastyMeetings, DynastyAnnouncements]),
    SeedEntry("Kemijärvi", "dynasty", "https://kemijarvi.oncloudos.com",
              [DynastyMeetings, DynastyOfficial, DynastyAnnouncements]),
    SeedEntry("Kittilä", "dynasty", "https://dynasty10.kittila.fi",
              [DynastyMeetings, DynastyOfficial, DynastyAnnouncements]),
    SeedEntry("Pelkosenniemi", "dynasty", "https://paatoksetd10.pelkosenniemi.fi",
              [("meetings", "/cgi/DREQUEST.PHP?page=meeting_handlers&id="), DynastyOfficial]),
    SeedEntry("Ranua", "dynasty", "https://paatoksetd10.ranua.fi", [DynastyMeetings, DynastyOfficial]),
    SeedEntry("Savukoski", "dynasty", "https://paatoksetd10.savukoski.fi",
              [DynastyMeetings, DynastyOfficial, DynastyAnnouncements]),
    SeedEntry("Simo", "dynasty", "https://simo.oncloudos.com", [DynastyMeetings, DynastyOfficial]),
    SeedEntry("Tornio", "dynasty", "https://tornio.oncloudos.com", [DynastyMeetings, DynastyOfficial]),
    SeedEntry("Keminmaa", "tweb", "https://keminmaa.tweb.fi", TWebPaths),
    SeedEntry("Kolari", "tweb", "https://kolari.tweb.fi", TWebPaths),
    SeedEntry("Pello", "tweb", "https://pello-julkaisu.triplancloud.fi", TWebPaths),
    SeedEntry("Posio", "tweb", "https://posio.tweb.fi",
              [TWebPaths[0], ("agendas", "/ktwebbin/dbisa.dll/ktwebscr/epj_tek_tweb.htm"), TWebPaths[2], TWebPaths[3]]),
    SeedEntry("Salla", "tweb", "http://salla.tweb.fi",
              [("meetings", "/ktwebbin/dbisa.dll/ktwebscr/pk_tek_tweb.htm"),
               ("agendas", "/ktwebbin/dbisa.dll/ktwebscr/epj_tek_tweb.htm"),
               ("officer_decisions", "/ktwebbin/dbisa.dll/ktwebscr/vparhaku_tweb.htm"),
               ("announcements", "/ktwebbin/dbisa.dll/ktwebscr/kuullist_tweb.htm")]),
    SeedEntry("Sodankylä", "tweb", "https://sodankyla.tweb.fi", TWebPaths),
    SeedEntry("Tervola", "tweb", "http://tervola.ktweb.fi",
              [("meetings", "/ktwebbin/dbisa.dll/ktwebscr/pk_tek.htm"),
               ("agendas", "/ktwebbin/dbisa.dll/ktwebscr/epj_tek.htm")]),
    SeedEntry("Ylitornio", "tweb", "https://ylitornio.tweb.fi",
              [TWebPaths[0], ("agendas", "/ktwebscr/epj_kokl_tweb.htm"), TWebPaths[2], TWebPaths[3]]),
    SeedEntry("Utsjoki", "municipal_website", "https://www.utsjoki.fi",
              [("meetings", "/kunta-ja-paatoksenteko/paatoksenteko/esityslistat-ja-poytakirjat/"),
               ("officer_decisions", "/kunta-ja-paatoksenteko/paatoksenteko/viranhaltijapaatokset/")]),
    SeedEntry("Lapin Liitto", "dynasty", "https://lapinliittod10.oncloudos.com",
              [("meetings", "/cgi/DREQUEST.PHP?page=meeting_handlers&id="),
               ("officer_decisions", "/cgi/DREQUEST.PHP?page=official_handlers&id=")]),
    SeedEntry("Lapin ELY-keskus", "municipal_website", "https://www.ely-keskus.fi",
              [("announcements", "/-/lap-kuulutukset")]),
    SeedEntry("Lapin hyvinvointialue", "tweb", "https://lapha-julkaisu.tweb.fi", TWebPaths)
  ]

  /** The document kinds a seed path may be listed under. */
  const PathKinds := {"meetings", "agendas", "officer_decisions", "announcements", "zoning"}

  /** No two entries name the same municipality. */
  predicate Distinct(entries: seq<SeedEntry>) {
    forall i, j :: 0 <= i < j < |entries| ==> entries[i].municipality != entries[j].municipality
  }

  /** The municipalities an entry list names. */
  function Names(entries: seq<SeedEntry>): set<string>
    decreases |entries|
  {
    if entries == [] then {} else Names(entries[..|entries| - 1]) + {entries[|entries| - 1].municipality}
  }

  /** Every entry's municipality is among the names. */
  lemma {:induction false} InNames(entries: seq<SeedEntry>, j: nat)
    requires j < |entries|
    ensures entries[j].municipality in Names(entries)
    decreases |entries|
  {
    if j < |entries| - 1 {
      InNames(entries[..|entries| - 1], j);
    }
  }

  /** Names of distinct entries exclude a later entry's. */
  lemma {:induction false} NotInNames(entries: seq<SeedEntry>, m: string)
    requires forall j :: 0 <= j < |entries| ==> entries[j].municipality != m
    ensures m !in Names(entries)
    decreases |entries|
  {
    if entries != [] {
      NotInNames(entries[..|entries| - 1], m);
    }
  }

  /** The municipalities of the table, in table order. */
  const Municipalities: seq<string> := [
    "Enontekiö", "Muonio", "Rovaniemi", "Inari", "Kemi", "Kemijärvi", "Kittilä", "Pelkosenniemi",
    "Ranua", "Savukoski", "Simo", "Tornio", "Keminmaa", "Kolari", "Pello", "Posio", "Salla",
    "Sodankylä", "Tervola", "Ylitornio", "Utsjoki", "Lapin Liitto", "Lapin ELY-keskus",
    "Lapin hyvinvointialue"]

  /** The table lists the 24 municipalities in this order. */
  lemma LaplandMunicipalities()
    ensures |LaplandSources| == 24
    ensures forall i :: 0 <= i < 24 ==> LaplandSources[i].municipality == Municipalities[i]
  {
  }

  /** The 24 names are pairwise different. */
  lemma MunicipalitiesDistinct()
    ensures forall i, j :: 0 <= i < j < |Municipalities| ==> Municipalities[i] != Municipalities[j]
  {
  }

  /** The table has 24 entries of distinct municipalities. */
  lemma LaplandDistinct()
    ensures |LaplandSources| == 24 && Distinct(LaplandSources)
  {
    LaplandMunicipalities();
    MunicipalitiesDistinct();
  }

  /** Every entry is on a platform with a connector. */
  lemma LaplandSupported()
    ensures forall i :: 0 <= i < |LaplandSources| ==> Discovery.Supported(LaplandSources[i].platform)
  {
  }

  /** All paths are listed under known document kinds. */
  predicate KnownKinds(paths: seq<(string, string)>) {
    forall k :: 0 <= k < |paths| ==> paths[k].0 in PathKinds
  }

  /** Every entry lists only known document kinds. */
  lemma LaplandPathKinds()
    ensures forall i :: 0 <= i < |LaplandSources| ==> KnownKinds(LaplandSources[i].paths)
  {
  }

  /** The config stored with an entry: its municipality and its paths. */
  function SeedConfig(e: SeedEntry): (c: Config)
    ensures c.municipality == Some(e.municipality) && c.paths == e.paths
    ensures c.listingPaths.None? && c.pdfPattern.None? && c.sourceType.None?
  {
    Config(Some(e.municipality), e.paths, None, None, None)
  }

  /** `query(Source).filter_by(municipality=m).first()`: the id of the first
      row of that municipality. */
  function FindMunicipality(sources: seq<SourceRow>, m: string): (r: Option<nat>)
    ensures r.Some? ==> IdIn(r.value, |sources|) && sources[r.value - 1].municipality == m
                        && forall k :: 0 <= k < r.value - 1 ==> sources[k].municipality != m
    ensures r.None? <==> forall k :: 0 <= k < |sources| ==> sources[k].municipality != m
  {
    if sources == [] then None
    else
      var front := sources[..|sources| - 1];
      assert forall k :: 0 <= k < |front| ==> front[k] == sources[k];
      match FindMunicipality(front, m)
      case Some(id) => Some(id)
      case None => if sources[|sources| - 1].municipality == m then Some(|sources|) else None
  }

  /** The lookup sees municipalities only. */
  lemma FindSameNames(a: seq<SourceRow>, b: seq<SourceRow>, m: string)
    requires |a| == |b| && forall i :: 0 <= i < |a| ==> a[i].municipality == b[i].municipality
    ensures FindMunicipality(a, m) == FindMunicipality(b, m)
  {
    var ra, rb := FindMunicipality(a, m), FindMunicipality(b, m);
    if ra.Some? && rb.Some? && ra.value != rb.value {
      assert false;
    }
  }

  /** A row found in a prefix is the first in the whole table. */
  lemma FindInPrefix(s: seq<SourceRow>, n: nat, m: string)
    requires n <= |s| && FindMunicipality(s[..n], m).Some?
    ensures FindMunicipality(s, m) == FindMunicipality(s[..n], m)
  {
    var id := FindMunicipality(s[..n], m).value;
    assert s[id - 1] == s[..n][id - 1];
    assert forall k :: 0 <= k < id - 1 ==> s[k] == s[..n][k];
    var r := FindMunicipality(s, m);
    if r.None? || r.value != id {
      assert false;
    }
  }

  /** The fields an update sets. */
  function Applied(row: SourceRow, e: SeedEntry): SourceRow {
    row.(platform := e.platform, baseUrl := e.baseUrl, config := Some(SeedConfig(e)), enabled := true)
  }

  /** Rows, `added` and `updated` while the loop runs. */
  datatype Tally = Tally(sources: seq<SourceRow>, added: nat, updated: nat)

  /** One entry. Autoflush is off, so the lookup sees only the `n0` rows
      that existed before seeding began. */
  function Upsert(t: Tally, n0: nat, e: SeedEntry): (r: Tally)
    requires n0 <= |t.sources|
    ensures r.added + r.updated == t.added + t.updated + 1
    ensures |r.sources| == |t.sources| + r.added - t.added
  {
    match FindMunicipality(t.sources[..n0], e.municipality)
    case Some(id) =>
      Tally(t.sources[id - 1 := Applied(t.sources[id - 1], e)], t.added, t.updated + 1)
    case None =>
      Tally(t.sources + [NewSource(e.municipality, e.platform, e.baseUrl, Some(SeedConfig(e)))],
            t.added + 1, t.updated)
  }

  /** The loop over the entries. Every entry is either added or updated. */
  function SeedAll(t: Tally, n0: nat, entries: seq<SeedEntry>): (r: Tally)
    requires n0 <= |t.sources|
    ensures r.added + r.updated == t.added + t.updated + |entries|
    ensures r.added >= t.added && |r.sources| == |t.sources| + r.added - t.added
    decreases |entries|
  {
    if entries == [] then t
    else Upsert(SeedAll(t, n0, entries[..|entries| - 1]), n0, entries[|entries| - 1])
  }

  /** `seed_sources()` on a sources table. */
  function Seeded(sources: seq<SourceRow>): (r: Tally)
    ensures r.added + r.updated == 24
  {
    SeedAll(Tally(sources, 0, 0), |sources|, LaplandSources)
  }

  /** The first row of the entry's municipality carries the entry. */
  predicate Configured(sources: seq<SourceRow>, e: SeedEntry) {
    var r := FindMunicipality(sources, e.municipality);
    r.Some? && Carries(sources[r.value - 1], e)
  }

  /** The row has the entry's platform, URL and config, and is enabled. */
  predicate Carries(row: SourceRow, e: SeedEntry) {
    row.platform == e.platform && row.baseUrl == e.baseUrl && row.enabled && row.config == Some(SeedConfig(e))
  }

  /** A row keeps its municipality and its health columns. */
  predicate KeepsHealth(a: SourceRow, b: SourceRow) {
    b.municipality == a.municipality && b.lastSuccessAt == a.lastSuccessAt
    && b.lastError == a.lastError && b.consecutiveFailures == a.consecutiveFailures
  }

  /** What seeding has done to a table `s` once the entries `done` are
      processed, giving `r`: the rows are kept as `RowsKept` says, and each
      seeded municipality is configured. */
  predicate SeedInv(s: seq<SourceRow>, r: seq<SourceRow>, done: seq<SeedEntry>) {
    RowsKept(s, r, Names(done)) && AllConfigured(r, done)
  }

  /** Existing rows keep municipality and health, rows of municipalities
      outside `names` are untouched, and new rows belong to `names`. */
  predicate RowsKept(s: seq<SourceRow>, r: seq<SourceRow>, names: set<string>) {
    |s| <= |r|
    && (forall i :: 0 <= i < |s| ==> KeepsHealth(s[i], r[i]))
    && (forall i :: 0 <= i < |s| && s[i].municipality !in names ==> r[i] == s[i])
    && (forall i :: |s| <= i < |r| ==> r[i].municipality in names)
  }

  /** Every entry of `done` is configured in `r`. */
  predicate AllConfigured(r: seq<SourceRow>, done: seq<SeedEntry>) {
    forall j :: 0 <= j < |done| ==> Configured(r, done[j])
  }

  /** Appending an entry adds its municipality to the names. */
  lemma NamesAppend(front: seq<SeedEntry>, e: SeedEntry)
    ensures Names(front + [e]) == Names(front) + {e.municipality}
  {
    assert (front + [e])[..|front|] == front;
  }

  /** Replacing a row by one of the same municipality keeps every other
      municipality configured. */
  lemma ReplaceKeepsConfigured(q: seq<SourceRow>, id: nat, x: SourceRow, d: SeedEntry)
    requires IdIn(id, |q|) && x.municipality == q[id - 1].municipality
    requires d.municipality != x.municipality && Configured(q, d)
    ensures Configured(q[id - 1 := x], d)
  {
    FindSameNames(q, q[id - 1 := x], d.municipality);
  }

  /** Updating the row found for an entry configures the entry. */
  lemma UpdateConfigures(q: seq<SourceRow>, n: nat, e: SeedEntry, id: nat)
    requires n <= |q| && FindMunicipality(q[..n], e.municipality) == Some(id)
    ensures Configured(q[id - 1 := Applied(q[id - 1], e)], e)
  {
    FindInPrefix(q, n, e.municipality);
    FindSameNames(q, q[id - 1 := Applied(q[id - 1], e)], e.municipality);
  }

  /** Updating an old row applies `RowsKept` with the row's municipality added. */
  lemma UpdateKeepsRows(s: seq<SourceRow>, q: seq<SourceRow>, names: set<string>, id: nat, x: SourceRow)
    requires RowsKept(s, q, names) && IdIn(id, |s|)
    requires KeepsHealth(q[id - 1], x)
    ensures RowsKept(s, q[id - 1 := x], names + {x.municipality})
  {
  }

  /** Updating the row found for a new entry keeps the earlier entries configured and configures it. */
  lemma UpdateAllConfigured(q: seq<SourceRow>, n: nat, front: seq<SeedEntry>, e: SeedEntry, id: nat)
    requires AllConfigured(q, front) && e.municipality !in Names(front)
    requires n <= |q| && FindMunicipality(q[..n], e.municipality) == Some(id)
    ensures AllConfigured(q[id - 1 := Applied(q[id - 1], e)], front + [e])
  {
    var x := Applied(q[id - 1], e);
    var r := q[id - 1 := x];
    assert q[..n][id - 1] == q[id - 1];
    UpdateConfigures(q, n, e, id);
    forall j | 0 <= j < |front + [e]| ensures Configured(r, (front + [e])[j]) {
      if j < |front| {
        assert (front + [e])[j] == front[j];
        InNames(front, j);
        ReplaceKeepsConfigured(q, id, x, front[j]);
      }
    }
  }

  /** An entry found among the old rows updates that row. */
  lemma UpdateKeepsInv(s: seq<SourceRow>, q: seq<SourceRow>, front: seq<SeedEntry>, e: SeedEntry, id: nat)
    requires SeedInv(s, q, front) && e.municipality !in Names(front)
    requires FindMunicipality(q[..|s|], e.municipality) == Some(id)
    ensures SeedInv(s, q[id - 1 := Applied(q[id - 1], e)], front + [e])
  {
    NamesAppend(front, e);
    assert q[..|s|][id - 1] == q[id - 1];
    UpdateKeepsRows(s, q, Names(front), id, Applied(q[id - 1], e));
    UpdateAllConfigured(q, |s|, front, e, id);
  }

  /** Appending a row for an entry whose municipality has none keeps the earlier entries configured and configures it. */
  lemma AddAllConfigured(q: seq<SourceRow>, front: seq<SeedEntry>, e: SeedEntry)
    requires AllConfigured(q, front) && FindMunicipality(q, e.municipality).None?
    ensures AllConfigured(q + [NewSource(e.municipality, e.platform, e.baseUrl, Some(SeedConfig(e)))], front + [e])
  {
    var r := q + [NewSource(e.municipality, e.platform, e.baseUrl, Some(SeedConfig(e)))];
    assert r[..|q|] == q;
    assert FindMunicipality(r, e.municipality) == Some(|r|);
    forall j | 0 <= j < |front + [e]| ensures Configured(r, (front + [e])[j]) {
      if j < |front| {
        assert (front + [e])[j] == front[j];
        FindInPrefix(r, |q|, front[j].municipality);
      }
    }
  }

  /** An entry not found among the old rows is appended. */
  lemma AddKeepsInv(s: seq<SourceRow>, q: seq<SourceRow>, front: seq<SeedEntry>, e: SeedEntry)
    requires SeedInv(s, q, front) && e.municipality !in Names(front)
    requires FindMunicipality(q[..|s|], e.municipality).None?
    ensures SeedInv(s, q + [NewSource(e.municipality, e.platform, e.baseUrl, Some(SeedConfig(e)))], front + [e])
  {
    NamesAppend(front, e);
    assert forall k :: 0 <= k < |s| ==> q[..|s|][k] == q[k];
    assert FindMunicipality(q, e.municipality).None?;
    AddAllConfigured(q, front, e);
  }

  /** For entries of distinct municipalities, seeding establishes `SeedInv`. */
  lemma {:induction false} SeedAllRows(s: seq<SourceRow>, entries: seq<SeedEntry>)
    requires Distinct(entries)
    ensures SeedInv(s, SeedAll(Tally(s, 0, 0), |s|, entries).sources, entries)
    decreases |entries|
  {
    if entries == [] {
      assert Names(entries) == {};
    } else {
      var front := entries[..|entries| - 1];
      var e := entries[|entries| - 1];
      DistinctSplit(entries);
      SeedAllRows(s, front);
      SeedStep(s, SeedAll(Tally(s, 0, 0), |s|, front), front, e);
    }
  }

  /** The last of distinct entries is new to the others. */
  lemma DistinctSplit(entries: seq<SeedEntry>)
    requires Distinct(entries) && entries != []
    ensures var front := entries[..|entries| - 1];
            Distinct(front) && entries[|entries| - 1].municipality !in Names(front)
            && entries == front + [entries[|entries| - 1]]
  {
    var front := entries[..|entries| - 1];
    assert forall k :: 0 <= k < |front| ==> front[k] == entries[k];
    NotInNames(front, entries[|entries| - 1].municipality);
  }

  /** The induction step of `SeedAllRows`. */
  lemma SeedStep(s: seq<SourceRow>, p: Tally, front: seq<SeedEntry>, e: SeedEntry)
    requires |s| <= |p.sources| && SeedInv(s, p.sources, front) && e.municipality !in Names(front)
    ensures SeedInv(s, Upsert(p, |s|, e).sources, front + [e])
  {
    var q := p.sources;
    match FindMunicipality(q[..|s|], e.municipality)
    case Some(id) =>
      assert Upsert(p, |s|, e).sources == q[id - 1 := Applied(q[id - 1], e)];
      UpdateKeepsInv(s, q, front, e, id);
    case None =>
      assert Upsert(p, |s|, e).sources == q + [NewSource(e.municipality, e.platform, e.baseUrl, Some(SeedConfig(e)))];
      AddKeepsInv(s, q, front, e);
  }

  /** An entry already configured is a no-op update. */
  lemma UpsertConfigured(t: Tally, e: SeedEntry)
    requires Configured(t.sources, e)
    ensures Upsert(t, |t.sources|, e) == t.(updated := t.updated + 1)
  {
    assert t.sources[..|t.sources|] == t.sources;
  }

  /** A table in which every entry is configured is left as it is, with
      every entry counted as updated. */
  lemma {:induction false} SeedConfiguredIsNoop(s: seq<SourceRow>, entries: seq<SeedEntry>)
    requires forall j :: 0 <= j < |entries| ==> Configured(s, entries[j])
    ensures SeedAll(Tally(s, 0, 0), |s|, entries) == Tally(s, 0, |entries|)
    decreases |entries|
  {
    if entries != [] {
      var front := entries[..|entries| - 1];
      var e := entries[|entries| - 1];
      SeedConfiguredIsNoop(s, front);
      UpsertConfigured(Tally(s, 0, |front|), e);
    }
  }

  /** Seeding twice is seeding once: the second run adds nothing and
      changes nothing. */
  lemma SeedTwice(s: seq<SourceRow>, entries: seq<SeedEntry>)
    requires Distinct(entries)
    ensures var r := SeedAll(Tally(s, 0, 0), |s|, entries).sources;
            SeedAll(Tally(r, 0, 0), |r|, entries) == Tally(r, 0, |entries|)
  {
    SeedAllRows(s, entries);
    SeedConfiguredIsNoop(SeedAll(Tally(s, 0, 0), |s|, entries).sources, entries);
  }

  /** Running the seed script a second time adds nothing and changes
      nothing. */
  lemma SeedIdempotent(s: seq<SourceRow>)
    ensures Seeded(Seeded(s).sources) == Tally(Seeded(s).sources, 0, 24)
  {
    LaplandDistinct();
    SeedTwice(s, LaplandSources);
  }

  /** After seeding distinct entries, the first row of each entry's
      municipality is enabled and carries the entry's platform, URL and
      config; rows of other municipalities are as they were. */
  lemma SeededEntry(s: seq<SourceRow>, entries: seq<SeedEntry>, j: nat) returns (id: nat)
    requires Distinct(entries) && j < |entries|
    ensures var r := SeedAll(Tally(s, 0, 0), |s|, entries).sources;
            FindMunicipality(r, entries[j].municipality) == Some(id) && Carries(r[id - 1], entries[j])
    ensures var r := SeedAll(Tally(s, 0, 0), |s|, entries).sources;
            forall i :: 0 <= i < |s| && s[i].municipality !in Names(entries) ==> r[i] == s[i]
  {
    SeedAllRows(s, entries);
    var r := SeedAll(Tally(s, 0, 0), |s|, entries).sources;
    id := ConfiguredRow(r, entries, j);
  }

  /** The row that configures an entry. */
  lemma ConfiguredRow(r: seq<SourceRow>, entries: seq<SeedEntry>, j: nat) returns (id: nat)
    requires AllConfigured(r, entries) && j < |entries|
    ensures FindMunicipality(r, entries[j].municipality) == Some(id) && Carries(r[id - 1], entries[j])
  {
    assert Configured(r, entries[j]);
    id := FindMunicipality(r, entries[j].municipality).value;
  }

  /** After seeding, each municipality of the table has an enabled source
      on a platform with a connector. */
  lemma SeededSources(s: seq<SourceRow>, j: nat) returns (id: nat)
    requires j < 24
    ensures var r := Seeded(s).sources;
            FindMunicipality(r, Municipalities[j]) == Some(id)
            && r[id - 1].enabled && Discovery.Supported(r[id - 1].platform)
  {
    LaplandDistinct();
    LaplandMunicipalities();
    LaplandSupported();
    id := SeededEntry(s, LaplandSources, j);
  }

  // ------------------------------------------------------------ methods

  /** The lookup as a scan of the table. */
  method FindFirst(sources: seq<SourceRow>, m: string) returns (r: Option<nat>)
    ensures r == FindMunicipality(sources, m)
  {
    var i := 0;
    while i < |sources|
      invariant 0 <= i <= |sources|
      invariant forall k :: 0 <= k < i ==> sources[k].municipality != m
    {
      if sources[i].municipality == m {
        return Some(i + 1);
      }
      i := i + 1;
    }
    return None;
  }

  /** The loop of `seed_sources()` visits the entries in order. */
  lemma SeedAllStep(t: Tally, n0: nat, entries: seq<SeedEntry>, i: nat)
    requires n0 <= |t.sources| && i < |entries|
    ensures SeedAll(t, n0, entries[..i + 1]) == Upsert(SeedAll(t, n0, entries[..i]), n0, entries[i])
  {
    assert entries[..i + 1][..i] == entries[..i];
  }

  /** One pass of the loop: update the first old row of the entry's
      municipality, or add a row. */
  method SeedOne(store: Store, n0: nat, e: SeedEntry, added: nat, updated: nat) returns (added': nat, updated': nat)
    requires n0 <= |store.sources|
    modifies store
    ensures Tally(store.sources, added', updated') == Upsert(Tally(old(store.sources), added, updated), n0, e)
    ensures store.Snapshot() == old(store.Snapshot()).(sources := store.sources)
  {
    var existing := FindFirst(store.sources[..n0], e.municipality);
    if existing.Some? {
      var id := existing.value;
      store.sources := store.sources[id - 1 := Applied(store.sources[id - 1], e)];
      added', updated' := added, updated + 1;
    } else {
      store.sources := store.sources + [NewSource(e.municipality, e.platform, e.baseUrl, Some(SeedConfig(e)))];
      added', updated' := added + 1, updated;
    }
  }

  /** The loop of `seed_sources()` over a table of entries. */
  method SeedEntries(store: Store, entries: seq<SeedEntry>) returns (added: nat, updated: nat)
    modifies store
    ensures var t := SeedAll(Tally(old(store.sources), 0, 0), |old(store.sources)|, entries);
            store.Snapshot() == old(store.Snapshot()).(sources := t.sources)
            && added == t.added && updated == t.updated
  {
    ghost var db0 := store.Snapshot();
    var n0 := |store.sources|;
    added, updated := 0, 0;
    var i := 0;
    while i < |entries|
      invariant 0 <= i <= |entries|
      invariant Tally(store.sources, added, updated) == SeedAll(Tally(db0.sources, 0, 0), n0, entries[..i])
      invariant store.Snapshot() == db0.(sources := store.sources)
    {
      SeedAllStep(Tally(db0.sources, 0, 0), n0, entries, i);
      added, updated := SeedOne(store, n0, entries[i], added, updated);
      i := i + 1;
    }
    assert entries[..i] == entries;
  }

  /** `seed_sources()`; the summary printing is left out. */
  method SeedSources(store: Store) returns (added: nat, updated: nat)
    modifies store
    ensures store.Snapshot() == old(store.Snapshot()).(sources := Seeded(old(store.sources)).sources)
    ensures added == Seeded(old(store.sources)).added && updated == Seeded(old(store.sources)).updated
  {
    added, updated := SeedEntries(store, LaplandSources);
  }
}
