/** The address check of both POST /bookings handlers, the regular expression
    `^[^\s@]+@[^\s@]+\.[^\s@]+$`. */
module Email {
  import opened Wrappers
  import opened Js
  import opened Seqs

  /** A character of the class `[^\s@]`. */
  predicate Plain(c: char)
  {
    !IsWhitespace(c) && c != '@'
  }

  predicate AllPlain(s: string)
  {
    forall i :: 0 <= i < |s| ==> Plain(s[i])
  }

  /** `[^\s@]+`. */
  predicate PlainRun(s: string)
  {
    |s| > 0 && AllPlain(s)
  }

  /** The language of the pattern: a plain run, an `@`, a plain run, a `.` and
      a plain run, covering the whole string. */
  ghost predicate MatchesPattern(s: string)
  {
    exists i, j :: 0 <= i < j < |s| && s[i] == '@' && s[j] == '.'
      && PlainRun(s[..i]) && PlainRun(s[i + 1..j]) && PlainRun(s[j + 1..])
  }

  predicate IsAt(c: char)
  {
    c == '@'
  }

  /** The domain after the one `@`: plain, with a `.` that has a character on
      each side. */
  predicate IsDomain(d: string)
  {
    AllPlain(d) && exists j :: 1 <= j < |d| - 1 && d[j] == '.'
  }

  /** In a match of the pattern the only `@` is the first one, at `i`. */
  lemma MatchAt(s: string, i: nat)
    requires FirstIndex(s, IsAt) == Some(i)
    ensures MatchesPattern(s) ==> 0 < i && AllPlain(s[..i]) && IsDomain(s[i + 1..])
  {
    if MatchesPattern(s) {
      var a, j :| 0 <= a < j < |s| && s[a] == '@' && s[j] == '.'
        && PlainRun(s[..a]) && PlainRun(s[a + 1..j]) && PlainRun(s[j + 1..]);
      MatchSplitsAt(s, i, a, j);
    }
  }

  lemma MatchSplitsAt(s: string, i: nat, a: nat, j: nat)
    requires FirstIndex(s, IsAt) == Some(i)
    requires a < j < |s| && s[a] == '@' && s[j] == '.'
    requires PlainRun(s[..a]) && PlainRun(s[a + 1..j]) && PlainRun(s[j + 1..])
    ensures 0 < i && AllPlain(s[..i]) && IsDomain(s[i + 1..])
  {
    FirstAtIsNameEnd(s, i, a);
    DomainOfMatch(s, a, j);
  }

  /** An `@` with only plain characters before it is the first one. */
  lemma FirstAtIsNameEnd(s: string, i: nat, a: nat)
    requires FirstIndex(s, IsAt) == Some(i)
    requires a < |s| && s[a] == '@' && AllPlain(s[..a])
    ensures i == a
  {
    assert s[i] == '@';
    assert forall k :: 0 <= k < i ==> s[k] != '@';
    forall k | 0 <= k < a
      ensures s[k] != '@'
    {
      assert s[k] == s[..a][k];
      assert Plain(s[..a][k]);
    }
  }

  lemma DomainOfMatch(s: string, a: nat, j: nat)
    requires a < j < |s| && s[j] == '.'
    requires PlainRun(s[a + 1..j]) && PlainRun(s[j + 1..])
    ensures IsDomain(s[a + 1..])
  {
    var d := s[a + 1..];
    assert d == s[a + 1..j] + [s[j]] + s[j + 1..];
    assert d[j - a - 1] == '.';
  }

  /** A name before the first `@` and a domain after it match the pattern. */
  lemma SplitMatches(s: string, i: nat)
    requires i < |s| && s[i] == '@'
    requires 0 < i && AllPlain(s[..i]) && IsDomain(s[i + 1..])
    ensures MatchesPattern(s)
  {
    var d := s[i + 1..];
    var j :| 1 <= j < |d| - 1 && d[j] == '.';
    assert s[i + 1..i + 1 + j] == d[..j];
    assert s[i + 1 + j + 1..] == d[j + 1..];
    assert PlainRun(s[..i]);
    assert PlainRun(s[i + 1..i + 1 + j]);
    assert PlainRun(s[i + 1 + j + 1..]);
  }

  /** `emailRegex.test(s)`, decided by locating the first `@`. */
  function IsValidEmail(s: string): (ok: bool)
    ensures ok <==> MatchesPattern(s)
  {
    match FirstIndex(s, IsAt)
    case None =>
      assert forall k :: 0 <= k < |s| ==> s[k] != '@';
      false
    case Some(i) =>
      var ok := 0 < i && AllPlain(s[..i]) && IsDomain(s[i + 1..]);
      if ok then SplitMatches(s, i); true
      else
        MatchAt(s, i);
        false
  }
}
