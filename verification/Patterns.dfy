/** The two regular expressions of the validators, written as explicit
    predicates: the injection screen `/<script|javascript:|on\w+=/i` and the
    email shape `/^[^\s@]+@[^\s@]+\.[^\s@]+$/`. */
module Patterns {
  import opened Strings

  /** `pat` (lower case) occurs at position `i` of `s`, ignoring ASCII case. */
  predicate MatchesAt(s: string, i: int, pat: string)
  {
    0 <= i && i + |pat| <= |s| && forall k :: 0 <= k < |pat| ==> LowerAscii(s[i + k]) == pat[k]
  }

  predicate ContainsIgnoringCase(s: string, pat: string)
  {
    exists i :: 0 <= i <= |s| - |pat| && MatchesAt(s, i, pat)
  }

  /** `\w` without the `u` flag: `[A-Za-z0-9_]`. */
  predicate IsWordChar(c: char)
  {
    ('a' <= c <= 'z') || ('A' <= c <= 'Z') || ('0' <= c <= '9') || c == '_'
  }

  /** `\w+=` from position `p`: one or more word characters, then "=". */
  predicate WordsThenEquals(s: string, p: int)
    decreases |s| - p
  {
    0 <= p && p + 1 < |s| && IsWordChar(s[p]) && (s[p + 1] == '=' || WordsThenEquals(s, p + 1))
  }

  /** One alternative of the screen starts at position `i`. */
  predicate InjectionAt(s: string, i: int)
  {
    || MatchesAt(s, i, "<script")
    || MatchesAt(s, i, "javascript:")
    || (MatchesAt(s, i, "on") && WordsThenEquals(s, i + 2))
  }

  /** The injection screen: true when the text must be rejected. */
  predicate IsInjection(s: string)
  {
    exists i :: 0 <= i < |s| && InjectionAt(s, i)
  }

  /** The recursive reading of `\w+=` agrees with the regular expression:
      some later "=" with only word characters, at least one, before it. */
  lemma {:induction false} WordsThenEqualsMeaning(s: string, p: int)
    requires 0 <= p
    ensures WordsThenEquals(s, p) <==>
      exists j :: p < j < |s| && s[j] == '=' && forall k :: p <= k < j ==> IsWordChar(s[k])
    decreases |s| - p
  {
    if p + 1 < |s| {
      WordsThenEqualsMeaning(s, p + 1);
      if WordsThenEquals(s, p) {
        if s[p + 1] != '=' {
          var j :| p + 1 < j < |s| && s[j] == '=' && forall k :: p + 1 <= k < j ==> IsWordChar(s[k]);
          assert forall k :: p <= k < j ==> IsWordChar(s[k]);
        } else {
          assert forall k :: p <= k < p + 1 ==> IsWordChar(s[k]);
        }
      } else if exists j :: p < j < |s| && s[j] == '=' && forall k :: p <= k < j ==> IsWordChar(s[k]) {
        var j :| p < j < |s| && s[j] == '=' && forall k :: p <= k < j ==> IsWordChar(s[k]);
        assert IsWordChar(s[p]);
      }
    }
  }

  /** A case-insensitive match of `pat` at `i` puts a character folding to
      `pat[0]` at `i`. */
  lemma MatchStartsWith(s: string, i: int, pat: string)
    requires |pat| > 0 && MatchesAt(s, i, pat)
    ensures LowerAscii(s[i]) == pat[0]
  {
    assert LowerAscii(s[i + 0]) == pat[0];
  }

  /** Every match of the screen starts at one of `<`, `j`, `J`, `o`, `O`:
      text without them always passes. */
  lemma InjectionNeedsMarker(s: string)
    requires forall k :: 0 <= k < |s| ==> s[k] !in {'<', 'j', 'J', 'o', 'O'}
    ensures !IsInjection(s)
  {
    forall i | 0 <= i < |s| ensures !InjectionAt(s, i) {
      if MatchesAt(s, i, "<script") {
        MatchStartsWith(s, i, "<script");
      }
      if MatchesAt(s, i, "javascript:") {
        MatchStartsWith(s, i, "javascript:");
      }
      if MatchesAt(s, i, "on") {
        MatchStartsWith(s, i, "on");
      }
    }
  }

  /** Examples the screen rejects: a script tag in any case, a
      `javascript:` URL and an inline handler with no space before `=`. */
  lemma InjectionExamples(a: string, b: string, c: string)
    requires a == "<SCRIPT>" && b == "javascript:alert(1)" && c == "x onerror=y"
    ensures IsInjection(a) && IsInjection(b) && IsInjection(c)
  {
    assert InjectionAt(a, 0) by { assert MatchesAt(a, 0, "<script"); }
    assert InjectionAt(b, 0) by { assert MatchesAt(b, 0, "javascript:"); }
    assert InjectionAt(c, 2) by {
      assert MatchesAt(c, 2, "on");
      WordsThenEqualsMeaning(c, 4);
      assert c[9] == '=' && forall k :: 4 <= k < 9 ==> IsWordChar(c[k]);
    }
  }

  /** A space before `=` escapes the handler pattern: "onerror =" passes. */
  lemma HandlerWithSpacePasses(s: string)
    requires s == "onerror ="
    ensures !IsInjection(s)
  {
    forall i | 0 <= i < |s| ensures !InjectionAt(s, i) {
      if MatchesAt(s, i, "<script") {
        MatchStartsWith(s, i, "<script");
      }
      if MatchesAt(s, i, "javascript:") {
        MatchStartsWith(s, i, "javascript:");
      }
      if MatchesAt(s, i, "on") {
        MatchStartsWith(s, i, "on");
        assert LowerAscii(s[i + 1]) == "on"[1];
        assert i == 0;
        BlockedBeforeEquals(s, 2, 7);
      }
    }
  }

  /** `\w+=` cannot start at `p` when a character that is not a word
      character comes at `q` with no "=" between. */
  lemma {:induction false} BlockedBeforeEquals(s: string, p: int, q: int)
    requires 0 <= p <= q < |s| && !IsWordChar(s[q])
    requires forall k :: p < k <= q ==> s[k] != '='
    ensures !WordsThenEquals(s, p)
    decreases q - p
  {
    if p < q {
      BlockedBeforeEquals(s, p + 1, q);
    }
  }

  /** `^[^\s@]+@[^\s@]+\.[^\s@]+$`: no white space, exactly one `@` with
      text before it, and a `.` after the `@` with text on both sides of it. */
  predicate IsEmailShape(s: string)
  {
    && NoSpace(s)
    && exists a, d :: 0 < a && a + 1 < d && d + 1 < |s| && s[a] == '@' && s[d] == '.'
         && forall k :: 0 <= k < |s| && k != a ==> s[k] != '@'
  }

  /** A string without `@`, or without a `.` after its `@`, is rejected. */
  lemma EmailNeedsAtAndDot(s: string)
    requires IsEmailShape(s)
    ensures '@' in s
    ensures exists a, d :: 0 <= a < d < |s| && s[a] == '@' && s[d] == '.'
  {
    var a, d :| 0 < a && a + 1 < d && d + 1 < |s| && s[a] == '@' && s[d] == '.'
      && forall k :: 0 <= k < |s| && k != a ==> s[k] != '@';
    assert s[a] in s;
  }
}
