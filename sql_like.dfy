/** SQLite's `LIKE` operator, which SQLAlchemy's `column.contains(x)`
    renders as `column LIKE '%' || x || '%'` with no ESCAPE clause: `%`
    matches any run of characters, `_` any one character, and every other
    character matches itself up to the case of the ASCII letters. */
module SqlLike {
  import opened Text

  /** SQLite's default `LIKE` folds only the ASCII letters. */
  function FoldAscii(c: char): (r: char)
    ensures 'A' <= c <= 'Z' ==> r as int == c as int + 32
    ensures !('A' <= c <= 'Z') ==> r == c
  {
    if 'A' <= c <= 'Z' then (c as int + 32) as char else c
  }

  /** Pattern character `q` other than `%` matches text character `c`. */
  predicate CharLike(c: char, q: char) {
    q == '_' || FoldAscii(q) == FoldAscii(c)
  }

  /** `a` matches the `%`-free pattern `p` character by character. */
  predicate Matches(a: string, p: string) {
    |a| == |p| && forall i :: 0 <= i < |a| ==> CharLike(a[i], p[i])
  }

  /** The window of `s` at `i` matches the `%`-free pattern `p`. */
  predicate MatchesAt(s: string, p: string, i: int) {
    0 <= i && i + |p| <= |s| && Matches(s[i..i + |p|], p)
  }

  /** `s LIKE p`. */
  predicate Like(s: string, p: string)
    decreases |s| + |p|
  {
    if p == [] then s == []
    else if p[0] == '%' then Like(s, p[1..]) || (s != [] && Like(s[1..], p))
    else s != [] && CharLike(s[0], p[0]) && Like(s[1..], p[1..])
  }

  /** `entities_json.contains(permit)` on SQLite. */
  predicate LikeContains(s: string, permit: string) {
    Like(s, "%" + permit + "%")
  }

  // ----------------------------------------------------------- lemmas

  /** Matching is decided by the first characters and the rest. */
  lemma MatchesCons(a: string, p: string)
    requires a != [] && p != []
    ensures Matches(a, p) <==> CharLike(a[0], p[0]) && Matches(a[1..], p[1..])
  {
    if CharLike(a[0], p[0]) && Matches(a[1..], p[1..]) {
      forall i | 0 <= i < |a| ensures CharLike(a[i], p[i]) {
        if i > 0 {
          assert a[1..][i - 1] == a[i] && p[1..][i - 1] == p[i];
        }
      }
    }
    if Matches(a, p) {
      forall i | 0 <= i < |a| - 1 ensures CharLike(a[1..][i], p[1..][i]) {
        assert a[1..][i] == a[i + 1] && p[1..][i] == p[i + 1];
      }
    }
  }

  /** Without `%`, `LIKE` compares character by character. */
  lemma {:induction false} LikeWithoutPercent(s: string, p: string)
    requires '%' !in p
    ensures Like(s, p) <==> Matches(s, p)
    decreases |p|
  {
    if p != [] && s != [] {
      assert p[0] != '%';
      assert '%' !in p[1..] by {
        forall i | 0 <= i < |p| - 1 ensures p[1..][i] != '%' {
          assert p[1..][i] == p[i + 1];
        }
      }
      LikeWithoutPercent(s[1..], p[1..]);
      MatchesCons(s, p);
    } else if p != [] {
      assert p[0] != '%';
    }
  }

  /** A lone `%` matches every text. */
  lemma {:induction false} LikeAnyRun(s: string)
    ensures Like(s, "%")
    decreases |s|
  {
    assert "%"[1..] == [];
    if s != [] {
      LikeAnyRun(s[1..]);
    }
  }

  /** `p%`, with `p` free of `%`, matches exactly the texts whose first
      `|p|` characters match `p`. */
  lemma {:induction false} LikeTrailingPercent(s: string, p: string)
    requires '%' !in p
    ensures Like(s, p + "%") <==> |p| <= |s| && Matches(s[..|p|], p)
    decreases |p|
  {
    if p == [] {
      assert p + "%" == "%";
      LikeAnyRun(s);
    } else {
      var q := p + "%";
      assert q[0] == p[0] && p[0] != '%';
      assert q[1..] == p[1..] + "%";
      assert '%' !in p[1..] by {
        forall i | 0 <= i < |p| - 1 ensures p[1..][i] != '%' {
          assert p[1..][i] == p[i + 1];
        }
      }
      if s != [] {
        LikeTrailingPercent(s[1..], p[1..]);
        if |p| <= |s| {
          assert s[1..][..|p| - 1] == s[..|p|][1..];
          MatchesCons(s[..|p|], p);
        }
      }
    }
  }

  /** `%q` matches exactly the texts with a suffix matching `q`. */
  lemma {:induction false} LikeLeadingPercent(s: string, q: string)
    ensures Like(s, "%" + q) <==> exists i :: 0 <= i <= |s| && Like(s[i..], q)
    decreases |s|
  {
    var p := "%" + q;
    assert p[0] == '%' && p[1..] == q;
    assert s[0..] == s;
    if s != [] {
      LikeLeadingPercent(s[1..], q);
      forall i | 1 <= i <= |s| ensures s[1..][i - 1..] == s[i..] { }
      if Like(s[1..], p) {
        var i :| 0 <= i <= |s| - 1 && Like(s[1..][i..], q);
        assert s[1..][i..] == s[i + 1..];
      }
      if exists i :: 0 <= i <= |s| && Like(s[i..], q) {
        var i :| 0 <= i <= |s| && Like(s[i..], q);
        if i > 0 {
          assert s[1..][i - 1..] == s[i..];
        }
      }
    }
  }

  /** For a permit free of `%`, the SQL substring test holds exactly when
      some window of the text matches the permit, `_` standing for any
      character and ASCII letters compared without case. */
  lemma LikeContainsWindow(s: string, permit: string)
    requires '%' !in permit
    ensures LikeContains(s, permit) <==> exists i :: MatchesAt(s, permit, i)
  {
    assert "%" + permit + "%" == "%" + (permit + "%");
    LikeLeadingPercent(s, permit + "%");
    forall i | 0 <= i <= |s|
      ensures Like(s[i..], permit + "%") <==> MatchesAt(s, permit, i)
    {
      LikeTrailingPercent(s[i..], permit);
      if i + |permit| <= |s| {
        assert s[i..][..|permit|] == s[i..i + |permit|];
      }
    }
  }

  /** Every text containing a `%`-free permit verbatim passes the SQL test. */
  lemma ContainsIsLike(s: string, permit: string)
    requires '%' !in permit && Contains(s, permit)
    ensures LikeContains(s, permit)
  {
    var i :| 0 <= i <= |s| - |permit| && At(s, permit, i);
    assert MatchesAt(s, permit, i);
    LikeContainsWindow(s, permit);
  }

  /** A text contains no other text of its own length. */
  lemma OnlySelfOfSameLength(s: string, k: string)
    requires |s| == |k| && s != k
    ensures !Contains(s, k)
  {
  }

  /** A matching window of `StoredPermit` anywhere in a text also passes
      the SQL test for its variants "MAL_2025_42" and "mal-2025-42". */
  const StoredPermit := "MAL-2025-42"

  /** "MAL_2025_42" and "mal-2025-42" are not substrings of "MAL-2025-42",
      yet any text containing it passes the SQL test for both: `_` matches
      "-" and the case of ASCII letters is ignored. */
  lemma WildcardAndCaseMatch(s: string)
    requires Contains(s, StoredPermit)
    ensures !Contains(StoredPermit, "MAL_2025_42") && LikeContains(s, "MAL_2025_42")
    ensures !Contains(StoredPermit, "mal-2025-42") && LikeContains(s, "mal-2025-42")
  {
    var i :| 0 <= i <= |s| - |StoredPermit| && At(s, StoredPermit, i);
    assert s[i..i + 11] == StoredPermit;
    assert MatchesAt(s, "MAL_2025_42", i);
    assert MatchesAt(s, "mal-2025-42", i);
    LikeContainsWindow(s, "MAL_2025_42");
    LikeContainsWindow(s, "mal-2025-42");
    assert StoredPermit[3] != "MAL_2025_42"[3] && StoredPermit[0] != "mal-2025-42"[0];
    OnlySelfOfSameLength(StoredPermit, "MAL_2025_42");
    OnlySelfOfSameLength(StoredPermit, "mal-2025-42");
  }
}
