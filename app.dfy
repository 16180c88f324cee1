/** The two decisions the web application makes on its own: whether an
    admin request may proceed, and which municipalities the feed page
    offers as filters. */
module App {
  import opened Wrappers
  import opened Models

  // ------------------------------------------------------- admin access

  /** The outcome of the admin dependency: the request proceeds, is
      refused with an HTTP status, or the check itself raises (which the
      framework answers with 500). */
  datatype Access = Granted | Refused(status: nat) | Raises

  const NotConfigured := 503
  const TokenRequired := 401
  const InvalidToken := 403

  /** Every character is ASCII. */
  predicate Ascii(s: string) {
    forall i :: 0 <= i < |s| ==> s[i] as int < 128
  }

  /** `secrets.compare_digest` on two strings: equality, or a `TypeError`
      (`None`) when either holds a character outside ASCII. */
  function CompareDigest(a: string, b: string): (r: Option<bool>)
    ensures r.Some? <==> Ascii(a) && Ascii(b)
    ensures r == Some(true) <==> Ascii(a) && a == b
  {
    if Ascii(a) && Ascii(b) then Some(a == b) else None
  }

  /** The check with a configured token `adminToken` (empty when unset)
      and the `token` query parameter (`None` when absent). */
  function VerifyAdminToken(adminToken: string, token: Option<string>): (r: Access)
    ensures adminToken == "" ==> r == Refused(NotConfigured)
    ensures adminToken != "" && !Truthy(token) ==> r == Refused(TokenRequired)
    ensures r.Refused? ==> r.status in {NotConfigured, TokenRequired, InvalidToken}
  {
    if adminToken == "" then Refused(NotConfigured)
    else if !Truthy(token) then Refused(TokenRequired)
    else match CompareDigest(token.value, adminToken)
      case None => Raises
      case Some(same) => if same then Granted else Refused(InvalidToken)
  }

  /** Access is granted exactly to the configured, non-empty, ASCII token. */
  lemma GrantedExactly(adminToken: string, token: Option<string>)
    ensures VerifyAdminToken(adminToken, token) == Granted
            <==> adminToken != "" && token == Some(adminToken) && Ascii(adminToken)
  {
  }

  /** A supplied token that differs from the configured one is refused
      with 403 when both are ASCII, and makes the check raise otherwise. */
  lemma WrongTokenRefused(adminToken: string, token: string)
    requires adminToken != "" && token != "" && token != adminToken
    ensures VerifyAdminToken(adminToken, Some(token))
            == if Ascii(token) && Ascii(adminToken) then Refused(InvalidToken) else Raises
  {
  }

  /** The settings class declares no `admin_token` field, so the attribute
      the check reads first does not exist. */
  const SettingsAdminToken: Option<string> := None

  /** The dependency as written: reading the missing attribute raises
      before any token is looked at. */
  function VerifyAdminTokenAsWritten(settingsToken: Option<string>, token: Option<string>): (r: Access)
    ensures settingsToken.Some? ==> r == VerifyAdminToken(settingsToken.value, token)
  {
    match settingsToken
    case None => Raises
    case Some(adminToken) => VerifyAdminToken(adminToken, token)
  }

  /** With the shipped settings no admin request is ever granted or even
      refused: every one raises. */
  lemma AdminRoutesUnreachable(token: Option<string>)
    ensures VerifyAdminTokenAsWritten(SettingsAdminToken, token) == Raises
  {
  }

  // -------------------------------------------------------- feed filters

  /** Python's `<` on strings: code-point lexicographic order. */
  predicate Below(a: string, b: string)
    decreases |a|
  {
    if a == [] then b != []
    else if b == [] then false
    else if a[0] != b[0] then a[0] < b[0]
    else Below(a[1..], b[1..])
  }

  /** No string is below itself. */
  lemma {:induction false} BelowIrreflexive(a: string)
    ensures !Below(a, a)
    decreases |a|
  {
    if a != [] {
      BelowIrreflexive(a[1..]);
    }
  }

  /** The order is transitive. */
  lemma {:induction false} BelowTransitive(a: string, b: string, c: string)
    requires Below(a, b) && Below(b, c)
    ensures Below(a, c)
    decreases |a|
  {
    if a != [] && a[0] == b[0] && b[0] == c[0] {
      BelowTransitive(a[1..], b[1..], c[1..]);
    }
  }

  /** Any two different strings are ordered one way or the other. */
  lemma {:induction false} BelowTotal(a: string, b: string)
    ensures a == b || Below(a, b) || Below(b, a)
    decreases |a|
  {
    if a != [] && b != [] && a[0] == b[0] {
      BelowTotal(a[1..], b[1..]);
      if a[1..] == b[1..] {
        assert a == [a[0]] + a[1..] && b == [b[0]] + b[1..];
      }
    }
  }

  /** Ascending, with no name twice. */
  predicate StrictlySorted(s: seq<string>) {
    forall i, j :: 0 <= i < j < |s| ==> Below(s[i], s[j])
  }

  /** Adds `m` to a sorted list of distinct names, keeping it so. */
  function Insert(s: seq<string>, m: string): (r: seq<string>)
    requires StrictlySorted(s)
    ensures StrictlySorted(r)
    ensures forall x :: x in r <==> x in s || x == m
  {
    if s == [] then [m]
    else if m == s[0] then s
    else
      BelowTotal(m, s[0]);
      if Below(m, s[0]) then
        assert forall j :: 0 < j < |s| ==> Below(m, s[j]) by {
          forall j | 0 < j < |s| ensures Below(m, s[j]) {
            BelowTransitive(m, s[0], s[j]);
          }
        }
        [m] + s
      else
        var t := Insert(s[1..], m);
        assert forall x :: x in s <==> x == s[0] || x in s[1..];
        assert forall j :: 0 <= j < |t| ==> Below(s[0], t[j]) by {
          forall j | 0 <= j < |t| ensures Below(s[0], t[j]) {
            if t[j] != m {
              assert t[j] in t;
              var k :| 0 <= k < |s[1..]| && s[1..][k] == t[j];
              assert s[k + 1] == t[j];
            }
          }
        }
        [s[0]] + t
  }

  /** The municipality names of the enabled sources among `sources`. */
  predicate EnabledIn(sources: seq<SourceRow>, m: string) {
    exists i :: 0 <= i < |sources| && sources[i].enabled && sources[i].municipality == m
  }

  /** `sorted(set(s.municipality for s in sources))` over the enabled
      sources: each name once, in ascending order. */
  function FeedMunicipalities(sources: seq<SourceRow>): (r: seq<string>)
    ensures StrictlySorted(r)
    ensures forall m :: m in r <==> EnabledIn(sources, m)
    decreases |sources|
  {
    if sources == [] then []
    else
      var front := sources[..|sources| - 1];
      var last := sources[|sources| - 1];
      var p := FeedMunicipalities(front);
      assert forall m :: EnabledIn(sources, m) <==> EnabledIn(front, m) || (last.enabled && last.municipality == m) by {
        forall m ensures EnabledIn(sources, m) <==> EnabledIn(front, m) || (last.enabled && last.municipality == m) {
          if EnabledIn(sources, m) {
            var i :| 0 <= i < |sources| && sources[i].enabled && sources[i].municipality == m;
            if i < |front| {
              assert front[i] == sources[i];
            }
          }
          if EnabledIn(front, m) {
            var i :| 0 <= i < |front| && front[i].enabled && front[i].municipality == m;
            assert sources[i] == front[i];
          }
        }
      }
      if last.enabled then Insert(p, last.municipality) else p
  }

  /** The first element of a strictly sorted list is below every other. */
  lemma HeadIsLeast(s: seq<string>, x: string)
    requires StrictlySorted(s) && x in s && x != s[0]
    ensures Below(s[0], x)
  {
  }

  /** Lists with the same elements are empty together. */
  lemma SameElementsBothEmpty(a: seq<string>, b: seq<string>)
    requires forall x :: x in a <==> x in b
    ensures a == [] <==> b == []
  {
    if a != [] {
      assert a[0] in b;
    }
    if b != [] {
      assert b[0] in a;
    }
  }

  /** Two strictly sorted lists with the same names are the same list, so
      the feed list is the one `sorted` returns, whatever the query order. */
  lemma {:induction false} SortedUnique(a: seq<string>, b: seq<string>)
    requires StrictlySorted(a) && StrictlySorted(b)
    requires forall x :: x in a <==> x in b
    ensures a == b
    decreases |a|
  {
    SameElementsBothEmpty(a, b);
    if a != [] {
      if a[0] != b[0] {
        HeadIsLeast(a, b[0]);
        HeadIsLeast(b, a[0]);
        BelowTransitive(a[0], b[0], a[0]);
        BelowIrreflexive(a[0]);
      }
      forall x ensures x in a[1..] <==> x in b[1..] {
        if x in a[1..] {
          var k :| 1 <= k < |a| && a[k] == x;
          assert Below(a[0], x);
          if x == a[0] { BelowIrreflexive(x); }
          assert x in a;
          var l :| 0 <= l < |b| && b[l] == x;
          assert l != 0;
          assert b[1..][l - 1] == x;
        }
        if x in b[1..] {
          var k :| 1 <= k < |b| && b[k] == x;
          assert Below(b[0], x);
          if x == b[0] { BelowIrreflexive(x); }
          assert x in b;
          var l :| 0 <= l < |a| && a[l] == x;
          assert l != 0;
          assert a[1..][l - 1] == x;
        }
      }
      SortedUnique(a[1..], b[1..]);
      assert a == [a[0]] + a[1..] && b == [b[0]] + b[1..];
    }
  }

  /** The list depends only on which names the enabled sources carry, not
      on the order or the number of the rows. */
  lemma FeedIgnoresOrder(a: seq<SourceRow>, b: seq<SourceRow>)
    requires forall m :: EnabledIn(a, m) <==> EnabledIn(b, m)
    ensures FeedMunicipalities(a) == FeedMunicipalities(b)
  {
    SortedUnique(FeedMunicipalities(a), FeedMunicipalities(b));
  }
}
