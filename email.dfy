/** The e-mail check shared by the login, sign-up and subcontractor forms: the regular
    expression `^[^\s@]+@[^\s@]+\.[^\s@]+$`. It is a plain shape check, not the address
    syntax of RFC 5322. */
module Email {
  import opened Common

  /** A character of the class `[^\s@]`. */
  predicate Plain(c: char) { !IsSpace(c) && c != '@' }

  /** A match of `[^\s@]+`. */
  predicate PlainRun(s: string) { s != [] && forall i | 0 <= i < |s| :: Plain(s[i]) }

  /** The whole string matches the pattern with the `@` at `at` and the `.` at `dot`. */
  predicate SplitsAt(s: string, at: int, dot: int)
  {
    0 <= at < dot < |s|
    && s[at] == '@' && s[dot] == '.'
    && PlainRun(s[..at]) && PlainRun(s[at + 1..dot]) && PlainRun(s[dot + 1..])
  }

  /** `s.match(/^[^\s@]+@[^\s@]+\.[^\s@]+$/)` is not null. */
  predicate MatchesPattern(s: string)
  {
    exists at, dot | 0 <= at < dot < |s| :: SplitsAt(s, at, dot)
  }

  /** `@` occurs in `s` at `at` and nowhere else. */
  predicate OnlyAtSign(s: string, at: int)
  {
    0 <= at < |s| && s[at] == '@' && forall i | 0 <= i < |s| && i != at :: s[i] != '@'
  }

  /** The domain (everything after the `@` at `at`) has a `.` with a character on each side. */
  predicate DomainHasInnerDot(s: string, at: int)
  {
    exists dot | 0 <= at + 1 < dot < |s| - 1 :: s[dot] == '.'
  }

  /** What the pattern accepts, stated without the pattern: no white space, exactly one
      `@`, a non-empty local part, and a `.` inside the domain with a character before
      and after it (other dots are allowed). */
  predicate Accepted(s: string)
  {
    (forall i | 0 <= i < |s| :: !IsSpace(s[i]))
    && exists at | 0 < at < |s| :: OnlyAtSign(s, at) && DomainHasInnerDot(s, at)
  }

  lemma {:induction false} PatternIsAccepted(s: string)
    ensures MatchesPattern(s) <==> Accepted(s)
  {
    if MatchesPattern(s) {
      var at, dot :| 0 <= at < dot < |s| && SplitsAt(s, at, dot);
      forall i | 0 <= i < |s| ensures !IsSpace(s[i]) && (i != at ==> s[i] != '@') {
        if i < at {
          assert s[..at][i] == s[i];
        } else if at < i < dot {
          assert s[at + 1..dot][i - at - 1] == s[i];
        } else if dot < i {
          assert s[dot + 1..][i - dot - 1] == s[i];
        }
      }
      assert |s[at + 1..dot]| > 0 && |s[dot + 1..]| > 0;
      assert OnlyAtSign(s, at) && DomainHasInnerDot(s, at);
    }
    if Accepted(s) {
      var at :| 0 < at < |s| && OnlyAtSign(s, at) && DomainHasInnerDot(s, at);
      var dot :| at + 1 < dot < |s| - 1 && s[dot] == '.';
      assert forall i | 0 <= i < at :: s[..at][i] == s[i];
      assert forall i | at + 1 <= i < dot :: s[at + 1..dot][i - at - 1] == s[i];
      assert forall i | dot + 1 <= i < |s| :: s[dot + 1..][i - dot - 1] == s[i];
      assert SplitsAt(s, at, dot);
    }
  }
}
