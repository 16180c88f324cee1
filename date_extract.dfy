/** The connectors' `_extract_date` heuristics: `re.search` with the
    patterns `(\d{1,2})\.(\d{1,2})\.(\d{4})`, `(\d{4})-(\d{2})-(\d{2})`
    and `(\d{1,2})/(\d{1,2})/(\d{4})`, tried in a fixed order; the
    leftmost match of a pattern is turned into a `datetime`, and when that
    raises `ValueError` the next pattern is tried. */
module DateExtract {
  import opened Wrappers
  import opened Calendar

  predicate IsDigit(c: char) { '0' <= c <= '9' }

  predicate AllDigits(s: string, i: int, n: int) {
    0 <= i && 0 <= n && i + n <= |s| && forall k :: i <= k < i + n ==> IsDigit(s[k])
  }

  /** `int(s[i:i+n])` for a run of decimal digits. */
  function DigitsValue(s: string, i: nat, n: nat): (v: nat)
    requires AllDigits(s, i, n)
    ensures v < Pow10(n)
  {
    if n == 0 then 0 else DigitsValue(s, i, n - 1) * 10 + (s[i + n - 1] as int - '0' as int)
  }

  function Pow10(n: nat): (p: nat)
    ensures p >= 1
  {
    if n == 0 then 1 else 10 * Pow10(n - 1)
  }

  datatype Pattern =
    | DayDotMonthDotYear    // (\d{1,2})\.(\d{1,2})\.(\d{4})
    | YearDashMonthDashDay  // (\d{4})-(\d{2})-(\d{2})
    | DaySlashMonthSlashYear // (\d{1,2})/(\d{1,2})/(\d{4})

  /** The three captured groups as integers, and the length of the first
      group's text (`len(groups[0])`). */
  datatype Groups = Groups(g1: nat, g2: nat, g3: nat, len1: nat)

  datatype Found = Found(pos: nat, groups: Groups)

  function Separator(p: Pattern): char {
    match p
    case DayDotMonthDotYear => '.'
    case YearDashMonthDashDay => '-'
    case DaySlashMonthSlashYear => '/'
  }

  /** The pattern matches at `i` with groups of lengths `l1`, `l2` and `l3`
      (the regular expression's own definition). */
  predicate Shape(s: string, i: int, p: Pattern, l1: int, l2: int, l3: int) {
    var sep := Separator(p);
    (if p == YearDashMonthDashDay then l1 == 4 && l2 == 2 && l3 == 2
     else 1 <= l1 <= 2 && 1 <= l2 <= 2 && l3 == 4)
    && AllDigits(s, i, l1)
    && i + l1 < |s| && s[i + l1] == sep
    && AllDigits(s, i + l1 + 1, l2)
    && i + l1 + 1 + l2 < |s| && s[i + l1 + 1 + l2] == sep
    && AllDigits(s, i + l1 + l2 + 2, l3)
  }

  /** Length of a greedy `\d{1,2}` group at `i` that the separator must
      follow; 0 when there is none. */
  function ShortGroup(s: string, i: nat, sep: char): (n: nat)
    ensures n <= 2
    ensures n > 0 ==> AllDigits(s, i, n) && i + n < |s| && s[i + n] == sep
  {
    if i + 2 < |s| && IsDigit(s[i]) && IsDigit(s[i + 1]) && s[i + 2] == sep then 2
    else if i + 1 < |s| && IsDigit(s[i]) && s[i + 1] == sep then 1
    else 0
  }

  /** What `re.match` of the pattern at position `i` captures. Because a
      separator (never a digit) follows each short group, backtracking
      cannot change the group lengths, so the match is computed directly. */
  function MatchAt(s: string, i: nat, p: Pattern): (r: Option<Groups>)
    ensures r.Some? ==> exists l2, l3 :: Shape(s, i, p, r.value.len1, l2, l3)
  {
    var sep := Separator(p);
    if p == YearDashMonthDashDay then
      if AllDigits(s, i, 4) && i + 4 < |s| && s[i + 4] == sep
         && AllDigits(s, i + 5, 2) && i + 7 < |s| && s[i + 7] == sep && AllDigits(s, i + 8, 2)
      then
        assert Shape(s, i, p, 4, 2, 2);
        Some(Groups(DigitsValue(s, i, 4), DigitsValue(s, i + 5, 2), DigitsValue(s, i + 8, 2), 4))
      else None
    else
      var l1 := ShortGroup(s, i, sep);
      if l1 == 0 then None
      else
        var l2 := ShortGroup(s, i + l1 + 1, sep);
        if l2 == 0 || !AllDigits(s, i + l1 + l2 + 2, 4) then None
        else
          assert Shape(s, i, p, l1, l2, 4);
          Some(Groups(DigitsValue(s, i, l1), DigitsValue(s, i + l1 + 1, l2),
                      DigitsValue(s, i + l1 + l2 + 2, 4), l1))
  }

  /** `MatchAt` finds a match exactly where the regular expression has one. */
  lemma MatchAtComplete(s: string, i: nat, p: Pattern, l1: int, l2: int, l3: int)
    requires Shape(s, i, p, l1, l2, l3)
    ensures MatchAt(s, i, p).Some?
    ensures MatchAt(s, i, p).value.len1 == l1
  {
    var sep := Separator(p);
    if p != YearDashMonthDashDay {
      assert IsDigit(s[i]);
      if l1 == 1 {
        assert !IsDigit(s[i + 1]);
      } else {
        assert IsDigit(s[i + 1]);
      }
      assert ShortGroup(s, i, sep) == l1;
      assert IsDigit(s[i + l1 + 1]);
      if l2 == 1 {
        assert !IsDigit(s[i + l1 + 2]);
      } else {
        assert IsDigit(s[i + l1 + 2]);
      }
      assert ShortGroup(s, i + l1 + 1, sep) == l2;
    }
  }

  /** `re.search`: the leftmost position at or after `k` where the pattern
      matches. */
  function Search(s: string, p: Pattern, k: nat): (r: Option<Found>)
    requires k <= |s|
    decreases |s| - k
    ensures r.Some? ==> k <= r.value.pos <= |s| && MatchAt(s, r.value.pos, p) == Some(r.value.groups)
    ensures r.Some? ==> forall j :: k <= j < r.value.pos ==> MatchAt(s, j, p).None?
    ensures r.None? ==> forall j :: k <= j <= |s| ==> MatchAt(s, j, p).None?
  {
    match MatchAt(s, k, p)
    case Some(g) => Some(Found(k, g))
    case None => if k == |s| then None else Search(s, p, k + 1)
  }

  /** The `datetime` built from a match: year first when the first group
      has four digits, day first otherwise. */
  function GroupsToDate(g: Groups): (r: Option<DateTime>)
    ensures r.Some? ==> ValidDate(r.value.year, r.value.month, r.value.day) && IsMidnight(r.value)
  {
    if g.len1 == 4 then MakeDate(g.g1, g.g2, g.g3) else MakeDate(g.g3, g.g2, g.g1)
  }

  /** The patterns' loop: the first pattern whose leftmost match makes a
      valid date decides the result. */
  function ExtractDate(ps: seq<Pattern>, text: string): (r: Option<DateTime>)
    decreases |ps|
  {
    if ps == [] then None
    else
      var found := Search(text, ps[0], 0);
      if found.Some? && GroupsToDate(found.value.groups).Some? then GroupsToDate(found.value.groups)
      else ExtractDate(ps[1..], text)
  }

  /** Patterns of the CloudNC and Dynasty connectors. */
  const FinnishThenIso := [DayDotMonthDotYear, YearDashMonthDashDay]

  /** Patterns of the TWeb connector. */
  const FinnishIsoSlash := [DayDotMonthDotYear, YearDashMonthDashDay, DaySlashMonthSlashYear]

  /** Any extracted date is a valid calendar date at midnight. */
  lemma {:induction false} ExtractDateValid(ps: seq<Pattern>, text: string)
    ensures ExtractDate(ps, text).Some? ==>
              var d := ExtractDate(ps, text).value;
              ValidDate(d.year, d.month, d.day) && IsMidnight(d)
    decreases |ps|
  {
    if ps != [] {
      ExtractDateValid(ps[1..], text);
    }
  }

  /** The result is the date of some pattern's leftmost match, or `None`
      exactly when no pattern's leftmost match is a valid date. */
  lemma {:induction false} ExtractDateChoice(ps: seq<Pattern>, text: string)
    ensures ExtractDate(ps, text).None? <==>
              forall k :: 0 <= k < |ps| ==>
                Search(text, ps[k], 0).None? || GroupsToDate(Search(text, ps[k], 0).value.groups).None?
    ensures ExtractDate(ps, text).Some? ==>
              exists k :: 0 <= k < |ps| && Search(text, ps[k], 0).Some? &&
                GroupsToDate(Search(text, ps[k], 0).value.groups) == ExtractDate(ps, text)
    decreases |ps|
  {
    if ps != [] {
      ExtractDateChoice(ps[1..], text);
      var found := Search(text, ps[0], 0);
      if found.Some? && GroupsToDate(found.value.groups).Some? {
      } else {
        if ExtractDate(ps, text).Some? {
          var k :| 0 <= k < |ps[1..]| && Search(text, ps[1..][k], 0).Some? &&
                   GroupsToDate(Search(text, ps[1..][k], 0).value.groups) == ExtractDate(ps, text);
          assert ps[1..][k] == ps[k + 1];
        }
        assert forall k :: 1 <= k < |ps| ==> ps[k] == ps[1..][k - 1];
      }
    }
  }

  /** The day-first pattern is tried first wherever the ISO date stands: a
      valid leftmost D.M.YYYY date wins. */
  lemma FinnishFirst(text: string)
    requires Search(text, DayDotMonthDotYear, 0).Some?
    requires GroupsToDate(Search(text, DayDotMonthDotYear, 0).value.groups).Some?
    ensures ExtractDate(FinnishThenIso, text) == GroupsToDate(Search(text, DayDotMonthDotYear, 0).value.groups)
    ensures ExtractDate(FinnishIsoSlash, text) == ExtractDate(FinnishThenIso, text)
  {
  }

  /** An invalid leftmost D.M.YYYY match is not searched past: the ISO
      pattern decides. */
  lemma FinnishFallsThrough(text: string)
    requires Search(text, DayDotMonthDotYear, 0).None?
          || GroupsToDate(Search(text, DayDotMonthDotYear, 0).value.groups).None?
    ensures ExtractDate(FinnishThenIso, text) ==
              var iso := Search(text, YearDashMonthDashDay, 0);
              if iso.Some? then GroupsToDate(iso.value.groups) else None
  {
    assert FinnishThenIso[1..] == [YearDashMonthDashDay];
    assert FinnishThenIso[1..][1..] == [];
  }

  /** "12.3.2025" is the 12th of March 2025. */
  lemma ExampleFinnishDate()
    ensures ExtractDate(FinnishThenIso, "12.3.2025") == Some(DateTime(2025, 3, 12, 0, 0, 0))
  {
    FinnishDateMatch();
  }

  lemma FinnishDateMatch()
    ensures Search("12.3.2025", DayDotMonthDotYear, 0) == Some(Found(0, Groups(12, 3, 2025, 2)))
  {
    var s := "12.3.2025";
    assert ShortGroup(s, 0, '.') == 2;
    assert ShortGroup(s, 3, '.') == 1;
    assert AllDigits(s, 5, 4);
  }

  /** Without its separator in the text a pattern has no match. */
  lemma NoSeparatorNoMatch(s: string, p: Pattern)
    requires forall j :: 0 <= j < |s| ==> s[j] != Separator(p)
    ensures Search(s, p, 0).None?
  {
    forall j | 0 <= j <= |s| ensures MatchAt(s, j, p).None? {
      if MatchAt(s, j, p).Some? {
        assert false;
      }
    }
  }

  /** The leftmost D.M.YYYY match of the example text is "31.2.2025". */
  lemma InvalidLeftmostMatch()
    ensures Search("31.2.2025 1.3.2025", DayDotMonthDotYear, 0) == Some(Found(0, Groups(31, 2, 2025, 2)))
  {
    var s := "31.2.2025 1.3.2025";
    assert ShortGroup(s, 0, '.') == 2;
    assert ShortGroup(s, 3, '.') == 1;
    assert AllDigits(s, 5, 4);
  }

  /** The example text has no ISO match. */
  lemma InvalidLeftmostNoIso()
    ensures Search("31.2.2025 1.3.2025", YearDashMonthDashDay, 0).None?
  {
    var s := "31.2.2025 1.3.2025";
    assert forall j :: 0 <= j < |s| ==> s[j] != '-';
    NoSeparatorNoMatch(s, YearDashMonthDashDay);
  }

  /** "31.2.2025" is not a date; the later "1.3.2025" is never looked at. */
  lemma ExampleInvalidLeftmost()
    ensures ExtractDate(FinnishThenIso, "31.2.2025 1.3.2025") == None
  {
    InvalidLeftmostMatch();
    InvalidLeftmostNoIso();
    assert !ValidDate(2025, 2, 31);
    assert FinnishThenIso[1..] == [YearDashMonthDashDay];
  }
}
