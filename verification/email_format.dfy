/**
 * The login form's email check, the regular expression
 * `^[^\s@]+@[^\s@]+\.[^\s@]+$`, and the `split('@')[0]` prefix that names a
 * user who gave no name.
 *
 * `RegexMatches` is the regular expression read literally: the whole string
 * splits into a run, an `@`, a run, a `.` and a run, where a run is non-empty
 * and holds neither whitespace (`\s`, the same set `trim` removes) nor `@`.
 * `ValidEmailFormat` is the check in plain terms; `RegexIffValidFormat`
 * proves the two agree on every string.
 */
module EmailFormat {
  import opened JsText

  /** A character of the class `[^\s@]`. */
  predicate Plain(c: char) {
    !IsSpace(c) && c != '@'
  }

  /** A match of `[^\s@]+`. */
  predicate PlainRun(s: string) {
    s != [] && forall k :: 0 <= k < |s| ==> Plain(s[k])
  }

  /** `s` is `run @ run . run`, with the `@` at `at` and the `.` at `dot`. */
  predicate SplitsAt(s: string, at: int, dot: int) {
    && 0 <= at < dot < |s|
    && s[at] == '@' && s[dot] == '.'
    && PlainRun(s[..at]) && PlainRun(s[at + 1..dot]) && PlainRun(s[dot + 1..])
  }

  /** The regular expression, read literally. */
  ghost predicate RegexMatches(s: string) {
    exists at, dot :: SplitsAt(s, at, dot)
  }

  /** The number of occurrences of `c` in `s`. */
  function Count(s: string, c: char): (n: nat)
    ensures n <= |s|
    ensures n == 0 <==> c !in s
  {
    if s == [] then 0 else (if s[0] == c then 1 else 0) + Count(s[1..], c)
  }

  lemma {:induction false} CountConcat(a: string, b: string, c: char)
    ensures Count(a + b, c) == Count(a, c) + Count(b, c)
  {
    if a == [] {
      assert a + b == b;
    } else {
      assert (a + b)[1..] == a[1..] + b;
      CountConcat(a[1..], b, c);
    }
  }

  /** `s.split(c)[0]`: everything before the first `c`, or all of `s`. */
  function BeforeFirst(s: string, c: char): (r: string)
    ensures |r| <= |s| && r == s[..|r|]
    ensures c !in r
    ensures |r| < |s| ==> s[|r|] == c
  {
    if s == [] || s[0] == c then [] else [s[0]] + BeforeFirst(s[1..], c)
  }

  /** Some `.` in `d` has at least one character on each side. */
  predicate HasInteriorDot(d: string) {
    exists k :: 0 < k < |d| - 1 && d[k] == '.'
  }

  /** No whitespace, exactly one `@`, a non-empty part before it, and a part
      after it holding a `.` with text on both sides. */
  predicate ValidEmailFormat(s: string) {
    && (forall k :: 0 <= k < |s| ==> !IsSpace(s[k]))
    && Count(s, '@') == 1
    && var local := BeforeFirst(s, '@');
       local != [] && HasInteriorDot(s[|local| + 1..])
  }

  /** A run without `@` is no split point, so the `@` of a match is the first. */
  lemma MatchAtFirstAt(s: string, at: int, dot: int)
    requires SplitsAt(s, at, dot)
    ensures BeforeFirst(s, '@') == s[..at]
    ensures Count(s, '@') == 1
  {
    var local, mid, last := BeforeFirst(s, '@'), s[at + 1..dot], s[dot + 1..];
    assert '@' !in s[..at] by {
      forall k | 0 <= k < at ensures s[..at][k] != '@' {
        assert Plain(s[..at][k]);
      }
    }
    assert local == s[..at];
    var rest := s[at + 1..];
    assert rest == mid + ['.'] + last;
    assert '@' !in mid by {
      forall k | 0 <= k < |mid| ensures mid[k] != '@' {
        assert Plain(mid[k]);
      }
    }
    assert '@' !in last by {
      forall k | 0 <= k < |last| ensures last[k] != '@' {
        assert Plain(last[k]);
      }
    }
    CountConcat(s[at + 1..dot], ['.'], '@');
    CountConcat(s[at + 1..dot] + ['.'], s[dot + 1..], '@');
    assert s == s[..at] + [s[at]] + rest;
    CountConcat(s[..at], [s[at]], '@');
    CountConcat(s[..at] + [s[at]], rest, '@');
  }

  lemma MatchIsValid(s: string, at: int, dot: int)
    requires SplitsAt(s, at, dot)
    ensures ValidEmailFormat(s)
  {
    MatchAtFirstAt(s, at, dot);
    forall k | 0 <= k < |s| ensures !IsSpace(s[k]) {
      if k < at {
        assert s[k] == s[..at][k];
        assert Plain(s[..at][k]);
      } else if at < k < dot {
        assert s[k] == s[at + 1..dot][k - at - 1];
        assert Plain(s[at + 1..dot][k - at - 1]);
      } else if dot < k {
        assert s[k] == s[dot + 1..][k - dot - 1];
        assert Plain(s[dot + 1..][k - dot - 1]);
      }
    }
    var d := s[at + 1..];
    assert d[dot - at - 1] == '.';
  }

  lemma ValidIsMatch(s: string) returns (at: int, dot: int)
    requires ValidEmailFormat(s)
    ensures SplitsAt(s, at, dot)
  {
    var local := BeforeFirst(s, '@');
    at := |local|;
    var d := s[at + 1..];
    var k :| 0 < k < |d| - 1 && d[k] == '.';
    dot := at + 1 + k;
    assert '@' !in d by {
      assert s == local + [s[at]] + d;
      CountConcat(local, [s[at]], '@');
      CountConcat(local + [s[at]], d, '@');
    }
    assert PlainRun(s[..at]) by {
      forall i | 0 <= i < at ensures Plain(s[..at][i]) {
        assert s[..at][i] == local[i] == s[i];
      }
    }
    var mid, last := s[at + 1..dot], s[dot + 1..];
    assert PlainRun(mid) by {
      forall i | 0 <= i < |mid| ensures Plain(mid[i]) {
        assert mid[i] == s[at + 1 + i] == d[i];
      }
    }
    assert PlainRun(last) by {
      forall i | 0 <= i < |last| ensures Plain(last[i]) {
        assert last[i] == s[dot + 1 + i] == d[k + 1 + i];
      }
    }
  }

  /** The regular expression accepts exactly the strings `ValidEmailFormat`
      describes. */
  lemma RegexIffValidFormat(s: string)
    ensures RegexMatches(s) <==> ValidEmailFormat(s)
  {
    if RegexMatches(s) {
      var at, dot :| SplitsAt(s, at, dot);
      MatchIsValid(s, at, dot);
    }
    if ValidEmailFormat(s) {
      var at, dot := ValidIsMatch(s);
    }
  }

  /** An address the regular expression accepts is never blank, so 'Email is
      required' and 'Invalid email format' never both apply; and the name
      derived from it, the part before the `@`, is never empty. */
  lemma ValidEmailNotBlankAndNamed(s: string)
    ensures ValidEmailFormat(s) ==> !Blank(s)
    ensures ValidEmailFormat(s) ==> BeforeFirst(s, '@') != []
  {
    if ValidEmailFormat(s) {
      assert !IsSpace(s[0]);
    }
  }
}
