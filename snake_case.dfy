/**
 * Collection names of the document store are derived from service names by `toSnakeCase`:
 * two regular-expression replacements followed by lower-casing.
 *
 *   pass 1  `(.)([A-Z][a-z]+)`  replaced by  `${1}_${2}`
 *   pass 2  `([a-z0-9])([A-Z])` replaced by  `${1}_${2}`
 *
 * Each pass is Go's `ReplaceAllString`: matches are found leftmost-first, never overlap,
 * and the search resumes right after each match; `[a-z]+` is greedy and `.` is any
 * character except a newline. Both passes are written below as explicit scans that
 * emit the text between matches unchanged.
 */
module SnakeCase {
  import opened Strings

  /** End (exclusive) of the run of lower-case ASCII letters of `s` that starts at `i`. */
  function LowerRunEnd(s: string, i: nat): (j: nat)
    requires i <= |s|
    ensures i <= j <= |s|
    ensures forall k | i <= k < j :: IsLower(s[k])
    ensures j == |s| || !IsLower(s[j])
    decreases |s| - i
  {
    if i < |s| && IsLower(s[i]) then LowerRunEnd(s, i + 1) else i
  }

  /** `(.)([A-Z][a-z]+)` matches at the start of `s`. */
  predicate FirstCapAt(s: string) {
    |s| >= 3 && s[0] != '\n' && IsUpper(s[1]) && IsLower(s[2])
  }

  /** `([a-z0-9])([A-Z])` matches at the start of `s`. */
  predicate AllCapAt(s: string) {
    |s| >= 2 && (IsLower(s[0]) || IsDigit(s[0])) && IsUpper(s[1])
  }

  /** Pass 1: an underscore before every capitalised word that follows some character. */
  function MatchFirstCap(s: string): (r: string)
    ensures |s| > 0 ==> |r| > 0 && r[0] == s[0]
    decreases |s|
  {
    if |s| < 3 then s
    else if FirstCapAt(s) then
      var e := LowerRunEnd(s, 2);
      [s[0], '_'] + s[1..e] + MatchFirstCap(s[e..])
    else
      [s[0]] + MatchFirstCap(s[1..])
  }

  /** Pass 2: an underscore between a lower-case letter or digit and an upper-case letter. */
  function MatchAllCap(s: string): (r: string)
    ensures |s| > 0 ==> |r| > 0 && r[0] == s[0]
    decreases |s|
  {
    if |s| < 2 then s
    else if AllCapAt(s) then [s[0], '_', s[1]] + MatchAllCap(s[2..])
    else [s[0]] + MatchAllCap(s[1..])
  }

  /** `toSnakeCase` (database/mongo/mongo.go). */
  function ToSnakeCase(s: string): (r: string)
    ensures NoUpper(r)
    ensures |r| >= |s|
  {
    MatchAllCapLength(MatchFirstCap(s));
    MatchFirstCapLength(s);
    ToLower(MatchAllCap(MatchFirstCap(s)))
  }

  lemma {:induction false} MatchFirstCapLength(s: string)
    ensures |MatchFirstCap(s)| >= |s|
    decreases |s|
  {
    if |s| >= 3 {
      if FirstCapAt(s) {
        MatchFirstCapLength(s[LowerRunEnd(s, 2)..]);
      } else {
        MatchFirstCapLength(s[1..]);
      }
    }
  }

  lemma {:induction false} MatchAllCapLength(s: string)
    ensures |MatchAllCap(s)| >= |s|
    decreases |s|
  {
    if |s| >= 2 {
      if AllCapAt(s) {
        MatchAllCapLength(s[2..]);
      } else {
        MatchAllCapLength(s[1..]);
      }
    }
  }

  /** Pass 1 only inserts underscores. */
  lemma {:induction false} MatchFirstCapOnlyInserts(s: string)
    ensures Strip(MatchFirstCap(s)) == Strip(s)
    decreases |s|
  {
    if |s| >= 3 {
      if FirstCapAt(s) {
        var e := LowerRunEnd(s, 2);
        MatchFirstCapOnlyInserts(s[e..]);
        InsertedUnderscore(s[0], s[1..e], MatchFirstCap(s[e..]), s[e..]);
        assert [s[0]] + s[1..e] + s[e..] == s;
      } else {
        MatchFirstCapOnlyInserts(s[1..]);
        StripCons(s[0], s[1..]);
        StripCons(s[0], MatchFirstCap(s[1..]));
        assert [s[0]] + s[1..] == s;
      }
    }
  }

  /**
   * Every capitalised word inside the text (an upper-case letter followed by a lower-case
   * one) is preceded by an underscore, a newline, or a lower-case letter. The last case is
   * left by the overlap rule: after a match ending in a lower-case run, the next word's
   * first character is not consumed again.
   */
  predicate Separated(r: string) {
    forall i | 1 <= i < |r| - 1 ::
      IsUpper(r[i]) && IsLower(r[i + 1]) ==> r[i - 1] == '_' || r[i - 1] == '\n' || IsLower(r[i - 1])
  }

  /** The second character of pass 1's output: the inserted underscore, or the input's own. */
  lemma MatchFirstCapSecond(t: string)
    requires |t| >= 2
    ensures |MatchFirstCap(t)| >= 2
    ensures MatchFirstCap(t)[1] == (if FirstCapAt(t) then '_' else t[1])
  {
    if |t| >= 3 && !FirstCapAt(t) {
      assert MatchFirstCap(t) == [t[0]] + MatchFirstCap(t[1..]);
    }
  }

  /** Pass 1 separates every capitalised word that it does not leave to pass 2. */
  lemma {:induction false} MatchFirstCapSeparates(s: string)
    ensures Separated(MatchFirstCap(s))
    decreases |s|
  {
    var r := MatchFirstCap(s);
    if |s| >= 3 {
      if FirstCapAt(s) {
        var e := LowerRunEnd(s, 2);
        var rest := MatchFirstCap(s[e..]);
        MatchFirstCapSeparates(s[e..]);
        assert r == [s[0], '_'] + s[1..e] + rest;
        forall i | 1 <= i < |r| - 1 && IsUpper(r[i]) && IsLower(r[i + 1])
          ensures r[i - 1] == '_' || r[i - 1] == '\n' || IsLower(r[i - 1])
        {
          if i == e + 1 {
            assert r[i - 1] == s[e - 1];
          } else if i > e + 1 {
            assert r[i - 1] == rest[i - e - 2] && r[i] == rest[i - e - 1] && r[i + 1] == rest[i - e];
          }
        }
      } else {
        var t := s[1..];
        var rest := MatchFirstCap(t);
        MatchFirstCapSeparates(t);
        MatchFirstCapSecond(t);
        assert r == [s[0]] + rest;
        forall i | 1 <= i < |r| - 1 && IsUpper(r[i]) && IsLower(r[i + 1])
          ensures r[i - 1] == '_' || r[i - 1] == '\n' || IsLower(r[i - 1])
        {
          if i >= 2 {
            assert r[i - 1] == rest[i - 2] && r[i] == rest[i - 1] && r[i + 1] == rest[i];
          }
        }
      }
    }
  }

  /** Pass 2 only inserts underscores. */
  lemma {:induction false} MatchAllCapOnlyInserts(s: string)
    ensures Strip(MatchAllCap(s)) == Strip(s)
    decreases |s|
  {
    if |s| >= 2 {
      if AllCapAt(s) {
        MatchAllCapOnlyInserts(s[2..]);
        InsertedUnderscore(s[0], [s[1]], MatchAllCap(s[2..]), s[2..]);
        assert [s[0], '_', s[1]] == [s[0], '_'] + [s[1]];
        assert [s[0]] + [s[1]] + s[2..] == s;
      } else {
        MatchAllCapOnlyInserts(s[1..]);
        StripCons(s[0], s[1..]);
        StripCons(s[0], MatchAllCap(s[1..]));
        assert [s[0]] + s[1..] == s;
      }
    }
  }

  /** The replacement `${1}_${2}` differs from the matched text by one underscore. */
  lemma InsertedUnderscore(c: char, x: string, rest: string, tail: string)
    requires Strip(rest) == Strip(tail)
    ensures Strip([c, '_'] + x + rest) == Strip([c] + x + tail)
  {
    var u, v := x + rest, x + tail;
    Regroup(c, '_', x, rest);
    assert [c] + x + tail == [c] + v;
    StripAppend(x, rest);
    StripAppend(x, tail);
    StripCons('_', u);
    StripCons(c, ['_'] + u);
    StripCons(c, v);
  }

  lemma Regroup(c: char, d: char, x: string, rest: string)
    ensures [c, d] + x + rest == [c] + ([d] + (x + rest))
  {
    assert [c, d] == [c] + [d];
  }

  /**
   * toSnakeCase only inserts underscores and lower-cases: with every underscore removed,
   * output and lower-cased input agree.
   */
  lemma ToSnakeCaseOnlyInserts(s: string)
    ensures Strip(ToSnakeCase(s)) == ToLower(Strip(s))
  {
    var p := MatchAllCap(MatchFirstCap(s));
    MatchFirstCapOnlyInserts(s);
    MatchAllCapOnlyInserts(MatchFirstCap(s));
    StripToLower(p);
  }

  /** Neither pattern can match text without an upper-case letter. */
  lemma {:induction false} PassesKeepLowerText(s: string)
    requires NoUpper(s)
    ensures MatchFirstCap(s) == s
    ensures MatchAllCap(s) == s
    decreases |s|
  {
    if |s| >= 2 {
      assert !IsUpper(s[1]);
      assert NoUpper(s[1..]) by {
        forall i | 0 <= i < |s[1..]| ensures !IsUpper(s[1..][i]) {
          assert s[1..][i] == s[i + 1];
        }
      }
      PassesKeepLowerText(s[1..]);
      assert [s[0]] + s[1..] == s;
    }
  }

  /** Text without an upper-case letter is returned unchanged. */
  lemma ToSnakeCaseKeepsLowerText(s: string)
    requires NoUpper(s)
    ensures ToSnakeCase(s) == s
  {
    PassesKeepLowerText(s);
    ToLowerKeepsLowerText(s);
  }

  /** toSnakeCase is idempotent. */
  lemma ToSnakeCaseIdempotent(s: string)
    ensures ToSnakeCase(ToSnakeCase(s)) == ToSnakeCase(s)
  {
    ToSnakeCaseKeepsLowerText(ToSnakeCase(s));
  }

  /** A lower-case letter or digit directly followed by an upper-case letter. */
  predicate CamelBoundaryAt(r: string, i: int)
    requires 0 <= i < |r| - 1
  {
    (IsLower(r[i]) || IsDigit(r[i])) && IsUpper(r[i + 1])
  }

  /** After pass 2 no lower-case letter or digit is directly followed by an upper-case letter. */
  lemma {:induction false} MatchAllCapSeparatesEveryBoundary(s: string)
    ensures forall i | 0 <= i < |MatchAllCap(s)| - 1 :: !CamelBoundaryAt(MatchAllCap(s), i)
    decreases |s|
  {
    var r := MatchAllCap(s);
    if |s| >= 2 {
      if AllCapAt(s) {
        var rest := MatchAllCap(s[2..]);
        MatchAllCapSeparatesEveryBoundary(s[2..]);
        assert r == [s[0], '_', s[1]] + rest;
        forall i | 0 <= i < |r| - 1 ensures !CamelBoundaryAt(r, i) {
          if i >= 3 {
            assert r[i] == rest[i - 3] && r[i + 1] == rest[i - 2];
            assert !CamelBoundaryAt(rest, i - 3);
          }
        }
      } else {
        var rest := MatchAllCap(s[1..]);
        MatchAllCapSeparatesEveryBoundary(s[1..]);
        assert r == [s[0]] + rest;
        forall i | 0 <= i < |r| - 1 ensures !CamelBoundaryAt(r, i) {
          if i >= 1 {
            assert r[i] == rest[i - 1] && r[i + 1] == rest[i];
            assert !CamelBoundaryAt(rest, i - 1);
          }
        }
      }
    }
  }

  /** Pass 2 changes nothing in text without a camel-case boundary. */
  lemma {:induction false} MatchAllCapKeepsUnbroken(s: string)
    requires forall i | 0 <= i < |s| - 1 :: !CamelBoundaryAt(s, i)
    ensures MatchAllCap(s) == s
    decreases |s|
  {
    if |s| >= 2 {
      assert !CamelBoundaryAt(s, 0);
      forall i | 0 <= i < |s[1..]| - 1 ensures !CamelBoundaryAt(s[1..], i) {
        assert !CamelBoundaryAt(s, i + 1);
      }
      MatchAllCapKeepsUnbroken(s[1..]);
      assert [s[0]] + s[1..] == s;
    }
  }

  /** Pass 2 is idempotent: what it leaves has no boundary left to separate. */
  lemma MatchAllCapIdempotent(s: string)
    ensures MatchAllCap(MatchAllCap(s)) == MatchAllCap(s)
  {
    MatchAllCapSeparatesEveryBoundary(s);
    MatchAllCapKeepsUnbroken(MatchAllCap(s));
  }

  /** The second character of pass 2's output: the inserted underscore, or the input's own. */
  lemma MatchAllCapSecond(t: string)
    requires |t| >= 2
    ensures |MatchAllCap(t)| >= 2
    ensures MatchAllCap(t)[1] == (if AllCapAt(t) then '_' else t[1])
  {
    if !AllCapAt(t) {
      assert MatchAllCap(t) == [t[0]] + MatchAllCap(t[1..]);
    }
  }

  /** A suffix of separated text is separated. */
  lemma SeparatedSuffix(s: string, k: nat)
    requires Separated(s) && k <= |s|
    ensures Separated(s[k..])
  {
    var t := s[k..];
    forall j | 1 <= j < |t| - 1 && IsUpper(t[j]) && IsLower(t[j + 1])
      ensures t[j - 1] == '_' || t[j - 1] == '\n' || IsLower(t[j - 1])
    {
      assert s[j + k] == t[j] && s[j + k + 1] == t[j + 1] && s[j + k - 1] == t[j - 1];
    }
  }

  /** Pass 2 keeps every capitalised word that pass 1 separated separated. */
  lemma {:induction false} MatchAllCapKeepsSeparated(s: string)
    requires Separated(s)
    ensures Separated(MatchAllCap(s))
    decreases |s|
  {
    var r := MatchAllCap(s);
    if |s| >= 2 {
      if AllCapAt(s) {
        var t := s[2..];
        var rest := MatchAllCap(t);
        SeparatedSuffix(s, 2);
        MatchAllCapKeepsSeparated(t);
        assert r == [s[0], '_', s[1]] + rest;
        if |t| >= 2 {
          MatchAllCapSecond(t);
        }
        forall i | 1 <= i < |r| - 1 && IsUpper(r[i]) && IsLower(r[i + 1])
          ensures r[i - 1] == '_' || r[i - 1] == '\n' || IsLower(r[i - 1])
        {
          if i == 3 {
            assert s[2] == r[3] && s[3] == r[4];
          } else if i > 3 {
            assert r[i - 1] == rest[i - 4] && r[i] == rest[i - 3] && r[i + 1] == rest[i - 2];
          }
        }
      } else {
        var t := s[1..];
        var rest := MatchAllCap(t);
        SeparatedSuffix(s, 1);
        MatchAllCapKeepsSeparated(t);
        assert r == [s[0]] + rest;
        if |t| >= 2 {
          MatchAllCapSecond(t);
        }
        forall i | 1 <= i < |r| - 1 && IsUpper(r[i]) && IsLower(r[i + 1])
          ensures r[i - 1] == '_' || r[i - 1] == '\n' || IsLower(r[i - 1])
        {
          if i >= 2 {
            assert r[i - 1] == rest[i - 2] && r[i] == rest[i - 1] && r[i + 1] == rest[i];
          }
        }
      }
    }
  }

  /**
   * Before lower-casing, every capitalised word after the first character starts right
   * after an underscore (or a newline, which `.` does not match): the two passes together
   * split at each word boundary.
   */
  lemma WordsSeparatedBeforeLowering(s: string)
    ensures var p := MatchAllCap(MatchFirstCap(s));
            forall i | 1 <= i < |p| - 1 :: IsUpper(p[i]) && IsLower(p[i + 1]) ==> p[i - 1] == '_' || p[i - 1] == '\n'
  {
    var p := MatchAllCap(MatchFirstCap(s));
    MatchFirstCapSeparates(s);
    MatchAllCapKeepsSeparated(MatchFirstCap(s));
    MatchAllCapSeparatesEveryBoundary(MatchFirstCap(s));
    forall i | 1 <= i < |p| - 1 && IsUpper(p[i]) && IsLower(p[i + 1])
      ensures p[i - 1] == '_' || p[i - 1] == '\n'
    {
      assert !CamelBoundaryAt(p, i - 1);
    }
  }
  /**
   * The underscore at `i` opens a word: an upper-case letter follows it, and either a
   * lower-case letter or digit precedes it (pass 2's boundary) or a character other than
   * a newline precedes it and a lower-case letter follows the upper-case one (pass 1's).
   */
  predicate OpensWord(r: string, i: int)
    requires 1 <= i < |r|
  {
    i + 1 < |r| && IsUpper(r[i + 1]) &&
    (IsLower(r[i - 1]) || IsDigit(r[i - 1]) || (r[i - 1] != '\n' && i + 2 < |r| && IsLower(r[i + 2])))
  }

  /** Every underscore past the first character opens a word. */
  predicate UnderscoresOpenWords(r: string) {
    forall i | 1 <= i < |r| && r[i] == '_' :: OpensWord(r, i)
  }

  /** On text without underscores of its own, pass 1 puts underscores only before capitalised words. */
  lemma {:induction false} MatchFirstCapUnderscores(s: string)
    requires '_' !in s
    ensures UnderscoresOpenWords(MatchFirstCap(s))
    decreases |s|
  {
    var r := MatchFirstCap(s);
    if |s| >= 3 {
      if FirstCapAt(s) {
        var e := LowerRunEnd(s, 2);
        var rest := MatchFirstCap(s[e..]);
        MatchFirstCapUnderscores(s[e..]);
        assert r == [s[0], '_'] + s[1..e] + rest;
        forall i | 1 <= i < |r| && r[i] == '_'
          ensures OpensWord(r, i)
        {
          if i == 1 {
            assert r[0] == s[0] && r[2] == s[1] && r[3] == s[2];
          } else if i > e + 1 {
            assert r[i] == rest[i - e - 1] && OpensWord(rest, i - e - 1);
            assert r[i - 1] == rest[i - e - 2];
            assert i + 1 < |r| ==> r[i + 1] == rest[i - e];
            assert i + 2 < |r| ==> r[i + 2] == rest[i - e + 1];
          }
        }
      } else {
        var t := s[1..];
        var rest := MatchFirstCap(t);
        MatchFirstCapUnderscores(t);
        assert r == [s[0]] + rest;
        forall i | 1 <= i < |r| && r[i] == '_'
          ensures OpensWord(r, i)
        {
          if i >= 2 {
            assert r[i] == rest[i - 1] && OpensWord(rest, i - 1);
            assert r[i - 1] == rest[i - 2];
            assert i + 1 < |r| ==> r[i + 1] == rest[i];
            assert i + 2 < |r| ==> r[i + 2] == rest[i + 1];
          }
        }
      }
    }
  }

  /** A suffix keeps the property. */
  lemma UnderscoresSuffix(s: string, k: nat)
    requires UnderscoresOpenWords(s) && k <= |s|
    ensures UnderscoresOpenWords(s[k..])
  {
    var t := s[k..];
    forall j | 1 <= j < |t| && t[j] == '_'
      ensures OpensWord(t, j)
    {
      assert s[j + k] == t[j] && OpensWord(s, j + k);
      assert s[j + k - 1] == t[j - 1];
      assert j + 1 < |t| ==> s[j + k + 1] == t[j + 1];
      assert j + 2 < |t| ==> s[j + k + 2] == t[j + 2];
    }
  }

  /** Pass 2 copies an underscore and the upper-case letter after it, and the character after that. */
  lemma AfterUnderscore(t: string)
    requires |t| >= 2 && t[0] == '_' && IsUpper(t[1])
    ensures |MatchAllCap(t)| >= 2 && MatchAllCap(t)[1] == t[1]
    ensures |t| >= 3 ==> |MatchAllCap(t)| >= 3 && MatchAllCap(t)[2] == t[2]
  {
    assert MatchAllCap(t) == [t[0]] + MatchAllCap(t[1..]);
    if |t| >= 3 {
      assert MatchAllCap(t[1..]) == [t[1]] + MatchAllCap(t[2..]);
    }
  }

  /** Pass 2 adds only underscores that open words, and keeps those that already do. */
  lemma {:induction false} MatchAllCapUnderscores(s: string)
    requires UnderscoresOpenWords(s)
    ensures UnderscoresOpenWords(MatchAllCap(s))
    decreases |s|
  {
    var r := MatchAllCap(s);
    if |s| >= 2 {
      if AllCapAt(s) {
        var t := s[2..];
        var rest := MatchAllCap(t);
        UnderscoresSuffix(s, 2);
        MatchAllCapUnderscores(t);
        assert r == [s[0], '_', s[1]] + rest;
        forall i | 1 <= i < |r| && r[i] == '_'
          ensures OpensWord(r, i)
        {
          if i == 1 {
            assert r[0] == s[0] && r[2] == s[1];
          } else if i == 3 {
            assert r[3] == s[2] && OpensWord(s, 2);
            AfterUnderscore(t);
            assert r[2] == s[1] && r[4] == s[3];
            assert |s| >= 5 ==> r[5] == s[4];
          } else if i > 3 {
            assert r[i] == rest[i - 3] && OpensWord(rest, i - 3);
            assert r[i - 1] == rest[i - 4];
            assert i + 1 < |r| ==> r[i + 1] == rest[i - 2];
            assert i + 2 < |r| ==> r[i + 2] == rest[i - 1];
          }
        }
      } else {
        var t := s[1..];
        var rest := MatchAllCap(t);
        UnderscoresSuffix(s, 1);
        MatchAllCapUnderscores(t);
        assert r == [s[0]] + rest;
        forall i | 1 <= i < |r| && r[i] == '_'
          ensures OpensWord(r, i)
        {
          if i == 1 {
            assert r[1] == s[1] && OpensWord(s, 1);
            AfterUnderscore(t);
            assert r[0] == s[0] && r[2] == s[2];
            assert |s| >= 4 ==> r[3] == s[3];
          } else {
            assert r[i] == rest[i - 1] && OpensWord(rest, i - 1);
            assert r[i - 1] == rest[i - 2];
            assert i + 1 < |r| ==> r[i + 1] == rest[i];
            assert i + 2 < |r| ==> r[i + 2] == rest[i + 1];
          }
        }
      }
    }
  }

  /**
   * On a name without underscores of its own, every underscore the two passes insert opens
   * a word, and none is put first. With `WordsSeparatedBeforeLowering` this places the
   * underscores exactly: `HTTPServer` can only become `HTTP_Server` before lower-casing.
   */
  lemma UnderscoresOnlyAtBoundaries(s: string)
    requires '_' !in s
    ensures var p := MatchAllCap(MatchFirstCap(s));
            UnderscoresOpenWords(p) && (|p| > 0 ==> p[0] != '_')
  {
    MatchFirstCapUnderscores(s);
    MatchAllCapUnderscores(MatchFirstCap(s));
  }
}
