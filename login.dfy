/**
 * The e-mail checks of the login page: `validateEmail`, the pattern
 * `^[^\s@]+@[^\s@]+\.[^\s@]+$`, and `validateGovtEmail`, a suffix test
 * against the government domains after lower-casing.
 */
module Login {
  import opened Js

  /** The characters JavaScript's `\s` matches: white space and line terminators. */
  predicate IsSpace(c: char)
  {
    c == '\t' || c == '\n' || c == '\U{000B}' || c == '\U{000C}' || c == '\r' || c == ' ' ||
    c == '\U{00A0}' || c == '\U{1680}' || ('\U{2000}' <= c <= '\U{200A}') ||
    c == '\U{2028}' || c == '\U{2029}' || c == '\U{202F}' || c == '\U{205F}' || c == '\U{3000}' || c == '\U{FEFF}'
  }

  /** `[^\s@]`: neither white space nor `@`. */
  predicate Plain(c: char)
  {
    !IsSpace(c) && c != '@'
  }

  predicate AllPlain(s: string)
  {
    forall k :: 0 <= k < |s| ==> Plain(s[k])
  }

  /**
   * What the pattern accepts: one or more plain characters, `@`, one or more
   * plain characters, a `.`, and one or more plain characters, with nothing
   * around them. `i` is the position of the `@` and `j` that of the `.`.
   */
  predicate MatchesEmailPattern(e: string)
  {
    exists i, j :: 0 < i && i + 1 < j < |e| - 1 && e[i] == '@' && e[j] == '.' &&
      AllPlain(e[..i]) && AllPlain(e[i + 1..j]) && AllPlain(e[j + 1..])
  }

  /** The position of the first `c` in `s`, or `|s|` when there is none. */
  function IndexOf(s: string, c: char): (i: nat)
    ensures i <= |s| && (i < |s| ==> s[i] == c)
    ensures forall k :: 0 <= k < i ==> s[k] != c
  {
    if s == [] then 0
    else if s[0] == c then 0
    else 1 + IndexOf(s[1..], c)
  }

  predicate NoSpace(s: string)
  {
    forall k :: 0 <= k < |s| ==> !IsSpace(s[k])
  }

  /** `validateEmail`, decided in one pass: no white space, a single `@` that is not first, and a `.` strictly inside the domain. */
  function ValidateEmail(email: string): bool
  {
    var at := IndexOf(email, '@');
    NoSpace(email) && 0 < at < |email| &&
    var domain := email[at + 1..];
    '@' !in domain && |domain| >= 3 && '.' in domain[1..|domain| - 1]
  }

  /** `validateEmail` accepts exactly the strings the pattern matches. */
  lemma ValidateEmailMatchesPattern(e: string)
    ensures ValidateEmail(e) <==> MatchesEmailPattern(e)
  {
    if ValidateEmail(e) {
      ValidateEmailSound(e);
    }
    if MatchesEmailPattern(e) {
      ValidateEmailComplete(e);
    }
  }

  lemma ValidateEmailSound(e: string)
    requires ValidateEmail(e)
    ensures MatchesEmailPattern(e)
  {
    var i := IndexOf(e, '@');
    var d := e[i + 1..];
    var k :| 0 <= k < |d[1..|d| - 1]| && d[1..|d| - 1][k] == '.';
    var j := i + 2 + k;
    assert e[j] == '.';
    assert forall m :: 0 <= m < |d| ==> d[m] != '@' && d[m] == e[i + 1 + m];
    assert AllPlain(e[..i]);
    assert AllPlain(e[i + 1..j]);
    assert AllPlain(e[j + 1..]);
  }

  lemma ValidateEmailComplete(e: string)
    requires MatchesEmailPattern(e)
    ensures ValidateEmail(e)
  {
    var i, j := PatternPositions(e);
    assert IndexOf(e, '@') == i;
    var d := e[i + 1..];
    assert '@' !in d by {
      forall m | 0 <= m < |d| ensures d[m] != '@' {
        assert d[m] == e[i + 1 + m];
      }
    }
    assert '.' in d[1..|d| - 1] by {
      assert d[1..|d| - 1][j - i - 2] == e[j];
    }
  }

  /** A match has no white space and its `@` at `i` is the only one. */
  lemma PatternPositions(e: string) returns (i: int, j: int)
    requires MatchesEmailPattern(e)
    ensures 0 < i && i + 1 < j < |e| - 1 && e[i] == '@' && e[j] == '.'
    ensures NoSpace(e) && forall k :: 0 <= k < |e| && k != i ==> e[k] != '@'
  {
    i, j :| 0 < i && i + 1 < j < |e| - 1 && e[i] == '@' && e[j] == '.' &&
      AllPlain(e[..i]) && AllPlain(e[i + 1..j]) && AllPlain(e[j + 1..]);
    forall k | 0 <= k < |e| ensures !IsSpace(e[k]) && (k != i ==> e[k] != '@') {
      if k != i {
        PlainOutsideAt(e, i, j, k);
      }
    }
  }

  /** Every character but the `@` of a match is plain. */
  lemma PlainOutsideAt(e: string, i: int, j: int, k: int)
    requires 0 < i && i + 1 < j < |e| - 1 && e[j] == '.'
    requires AllPlain(e[..i]) && AllPlain(e[i + 1..j]) && AllPlain(e[j + 1..])
    requires 0 <= k < |e| && k != i
    ensures Plain(e[k])
  {
    if k < i {
      assert e[k] == e[..i][k];
    } else if i < k < j {
      PlainAt(e, i + 1, j, k);
    } else if j < k {
      assert e[k] == e[j + 1..][k - j - 1];
    }
  }

  lemma PlainAt(e: string, lo: int, hi: int, k: int)
    requires 0 <= lo <= k < hi <= |e| && AllPlain(e[lo..hi])
    ensures Plain(e[k])
  {
    assert e[k] == e[lo..hi][k - lo];
  }

  /** Strings the pattern rejects: a second `@`, a `.` at either end of the domain, white space, nothing before the `@`. */
  lemma ValidateEmailRejects()
    ensures !ValidateEmail("a@b@c.d")
    ensures !ValidateEmail("a@b.")
    ensures !ValidateEmail("a@.b")
    ensures !ValidateEmail("a @b.c")
    ensures !ValidateEmail("@b.c")
  {
    assert IndexOf("a@b@c.d", '@') == 1;
    assert "a@b@c.d"[2..] == "b@c.d";
    assert IndexOf("a@b.", '@') == 1;
    assert "a@b."[2..] == "b.";
    assert IndexOf("a@.b", '@') == 1;
    assert "a@.b"[2..] == ".b";
    assert "a @b.c"[1] == ' ';
    assert IndexOf("@b.c", '@') == 0;
  }

  /** The shortest shape the pattern accepts. */
  lemma ValidateEmailAccepts()
    ensures ValidateEmail("a@b.c")
  {
    var e := "a@b.c";
    assert IndexOf(e, '@') == 1;
    assert e[2..] == "b.c" && "b.c"[1..2] == ".";
    forall k | 0 <= k < |e| ensures !IsSpace(e[k]) {
      assert e[k] in {'a', '@', 'b', '.', 'c'};
    }
  }

  // ---------------------------------------------------------------------------
  // Government addresses

  const GOVT_DOMAINS: seq<string> := [".gov.in", ".nic.in", ".gov"]

  /** `s.endsWith(suffix)` */
  predicate EndsWith(s: string, suffix: string)
  {
    |suffix| <= |s| && s[|s| - |suffix|..] == suffix
  }

  /** `domains.some(d => s.endsWith(d))` */
  function SomeEndsWith(s: string, domains: seq<string>): (b: bool)
    ensures b <==> exists k :: 0 <= k < |domains| && EndsWith(s, domains[k])
  {
    if domains == [] then false
    else EndsWith(s, domains[0]) || SomeEndsWith(s, domains[1..])
  }

  /** `validateGovtEmail`: the lower-cased address ends with a government domain. */
  function ValidateGovtEmail(email: string): bool
  {
    SomeEndsWith(ToLowerCase(email), GOVT_DOMAINS)
  }

  /** The accepted addresses are exactly those whose lower-case form ends with `.gov.in`, `.nic.in` or `.gov`. */
  lemma ValidateGovtEmailIff(email: string)
    ensures var l := ToLowerCase(email);
      ValidateGovtEmail(email) <==> EndsWith(l, ".gov.in") || EndsWith(l, ".nic.in") || EndsWith(l, ".gov")
  {
    var l := ToLowerCase(email);
    if ValidateGovtEmail(email) {
      var k :| 0 <= k < |GOVT_DOMAINS| && EndsWith(l, GOVT_DOMAINS[k]);
    }
    if EndsWith(l, ".gov.in") {
      assert EndsWith(l, GOVT_DOMAINS[0]);
    }
    if EndsWith(l, ".nic.in") {
      assert EndsWith(l, GOVT_DOMAINS[1]);
    }
    if EndsWith(l, ".gov") {
      assert EndsWith(l, GOVT_DOMAINS[2]);
    }
  }

  /** Letter case never matters: two addresses that agree up to case get the same answer. */
  lemma ValidateGovtEmailIgnoresCase(a: string, b: string)
    requires |a| == |b| && forall k :: 0 <= k < |a| ==> LowerChar(a[k]) == LowerChar(b[k])
    ensures ValidateGovtEmail(a) == ValidateGovtEmail(b)
  {
    assert ToLowerCase(a) == ToLowerCase(b);
  }

  /** No `@` is needed: a bare domain passes the government check, though not the address check. */
  lemma GovtCheckNeedsNoAt()
    ensures ValidateGovtEmail("dept.gov")
    ensures !ValidateEmail("dept.gov")
  {
    var l := ToLowerCase("dept.gov");
    assert l == "dept.gov";
    assert EndsWith(l, GOVT_DOMAINS[2]);
    assert '@' !in "dept.gov" by {
      forall k | 0 <= k < 8 ensures "dept.gov"[k] != '@' {
        assert "dept.gov"[k] in {'d', 'e', 'p', 't', '.', 'g', 'o', 'v'};
      }
    }
  }

  /** Upper-case addresses are accepted like their lower-case forms. */
  lemma GovtCheckUpperCase()
    ensures ValidateGovtEmail("Officer@DELHI.NIC.IN")
  {
    var u := ToLowerCase("Officer@DELHI.NIC.IN");
    assert u == "officer@delhi.nic.in";
    assert u[13..] == ".nic.in";
    assert EndsWith(u, GOVT_DOMAINS[1]);
  }
}
