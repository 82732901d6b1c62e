/** HTML entity escaping. `sanitizeForDisplay` (client) and `escapeHtml`
    (inquiry mailer) are the same chain of five global replacements; it is
    defined once here, as written, and proved equal to a per-character
    escape. */
module Html {

  /** `s.replace(/c/g, rep)`: every occurrence of the character `c` becomes `rep`. */
  function ReplaceAll(s: string, c: char, rep: string): (r: string)
    ensures c !in s ==> r == s
    ensures c !in rep ==> c !in r
  {
    if s == [] then []
    else (if s[0] == c then rep else [s[0]]) + ReplaceAll(s[1..], c, rep)
  }

  /** The chain as the source writes it: `&` first, then `<`, `>`, `"`, `'`. */
  function EscapeHtml(s: string): (r: string)
    // text without any of the five characters is left as it is
    ensures '&' !in s && '<' !in s && '>' !in s && '"' !in s && '\'' !in s ==> r == s
  {
    var a := ReplaceAll(s, '&', "&amp;");
    var b := ReplaceAll(a, '<', "&lt;");
    var c := ReplaceAll(b, '>', "&gt;");
    var d := ReplaceAll(c, '"', "&quot;");
    ReplaceAll(d, '\'', "&#039;")
  }

  /** The entity for one character, or the character itself. */
  function EscapeChar(c: char): (r: string)
    ensures r != []
    ensures r == [c] <==> !IsSpecial(c)
  {
    match c
    case '&' => "&amp;"
    case '<' => "&lt;"
    case '>' => "&gt;"
    case '"' => "&quot;"
    case '\'' => "&#039;"
    case _ => [c]
  }

  /** Reference definition: each character escaped on its own. */
  function EscapeEach(s: string): (r: string)
    ensures |r| >= |s|
    ensures r == [] <==> s == []
  {
    if s == [] then [] else EscapeChar(s[0]) + EscapeEach(s[1..])
  }

  /** The five characters the chain replaces. */
  predicate IsSpecial(c: char)
  {
    c == '&' || c == '<' || c == '>' || c == '"' || c == '\''
  }

  predicate IsDangerous(c: char)
  {
    c == '<' || c == '>' || c == '"' || c == '\''
  }

  lemma {:induction false} ReplaceAllAppend(a: string, b: string, c: char, rep: string)
    ensures ReplaceAll(a + b, c, rep) == ReplaceAll(a, c, rep) + ReplaceAll(b, c, rep)
  {
    if a == [] {
      assert a + b == b;
    } else {
      var h := if a[0] == c then rep else [a[0]];
      var ab := a + b;
      assert ab[0] == a[0] && ab[1..] == a[1..] + b;
      ReplaceAllAppend(a[1..], b, c, rep);
      calc {
        ReplaceAll(ab, c, rep);
        h + ReplaceAll(a[1..] + b, c, rep);
        h + (ReplaceAll(a[1..], c, rep) + ReplaceAll(b, c, rep));
        (h + ReplaceAll(a[1..], c, rep)) + ReplaceAll(b, c, rep);
      }
    }
  }

  lemma EscapeHtmlAppend(a: string, b: string)
    ensures EscapeHtml(a + b) == EscapeHtml(a) + EscapeHtml(b)
  {
    var a1, b1 := ReplaceAll(a, '&', "&amp;"), ReplaceAll(b, '&', "&amp;");
    ReplaceAllAppend(a, b, '&', "&amp;");
    var a2, b2 := ReplaceAll(a1, '<', "&lt;"), ReplaceAll(b1, '<', "&lt;");
    ReplaceAllAppend(a1, b1, '<', "&lt;");
    var a3, b3 := ReplaceAll(a2, '>', "&gt;"), ReplaceAll(b2, '>', "&gt;");
    ReplaceAllAppend(a2, b2, '>', "&gt;");
    var a4, b4 := ReplaceAll(a3, '"', "&quot;"), ReplaceAll(b3, '"', "&quot;");
    ReplaceAllAppend(a3, b3, '"', "&quot;");
    ReplaceAllAppend(a4, b4, '\'', "&#039;");
  }

  lemma ReplaceAllSingle(x: char, c: char, rep: string)
    ensures ReplaceAll([x], c, rep) == if x == c then rep else [x]
  {
    assert [x][1..] == [];
  }

  /** The four passes after the `&` pass leave text without `<`, `>`, `"`
      and `'` alone. */
  lemma LaterPassesKeep(t: string)
    requires '<' !in t && '>' !in t && '"' !in t && '\'' !in t
    ensures EscapeHtml(t) == ReplaceAll(t, '&', "&amp;")
  {
    var a := ReplaceAll(t, '&', "&amp;");
    assert '<' !in "&amp;" && '>' !in "&amp;" && '"' !in "&amp;" && '\'' !in "&amp;";
    ReplaceAllNotIn(t, '&', "&amp;", '<');
    ReplaceAllNotIn(t, '&', "&amp;", '>');
    ReplaceAllNotIn(t, '&', "&amp;", '"');
    ReplaceAllNotIn(t, '&', "&amp;", '\'');
  }

  lemma {:induction false} ReplaceAllNotIn(s: string, c: char, rep: string, y: char)
    requires y !in s && y !in rep
    ensures y !in ReplaceAll(s, c, rep)
  {
    if s != [] {
      assert y != s[0] by { assert s[0] in s; }
      ReplaceAllNotIn(s[1..], c, rep, y);
    }
  }

  /** The passes after `<` leave text without `>`, `"` and `'` alone. */
  lemma EntityKept(t: string)
    requires forall k :: 0 <= k < |t| ==> t[k] == '&' || 'a' <= t[k] <= 'z' || t[k] == ';'
    ensures ReplaceAll(ReplaceAll(ReplaceAll(t, '>', "&gt;"), '"', "&quot;"), '\'', "&#039;") == t
  {
    assert '>' !in t && '"' !in t && '\'' !in t;
  }

  lemma EscapeHtmlOrdinary(x: char)
    requires !IsSpecial(x)
    ensures EscapeHtml([x]) == [x]
  {
    ReplaceAllSingle(x, '&', "&amp;");
    ReplaceAllSingle(x, '<', "&lt;");
    ReplaceAllSingle(x, '>', "&gt;");
    ReplaceAllSingle(x, '"', "&quot;");
    ReplaceAllSingle(x, '\'', "&#039;");
  }

  lemma EscapeHtmlAmpersand(x: char)
    requires x == '&'
    ensures EscapeHtml([x]) == "&amp;"
  {
    ReplaceAllSingle(x, '&', "&amp;");
    LaterPassesKeep([x]);
  }

  lemma EscapeHtmlLt(x: char)
    requires x == '<'
    ensures EscapeHtml([x]) == "&lt;"
  {
    assert ReplaceAll(ReplaceAll([x], '&', "&amp;"), '<', "&lt;") == "&lt;" by {
      ReplaceAllSingle(x, '&', "&amp;");
      ReplaceAllSingle(x, '<', "&lt;");
    }
    EntityKept("&lt;");
  }

  lemma EscapeHtmlGt(x: char)
    requires x == '>'
    ensures EscapeHtml([x]) == "&gt;"
  {
    assert ReplaceAll(ReplaceAll(ReplaceAll([x], '&', "&amp;"), '<', "&lt;"), '>', "&gt;") == "&gt;" by {
      ReplaceAllSingle(x, '&', "&amp;");
      ReplaceAllSingle(x, '<', "&lt;");
      ReplaceAllSingle(x, '>', "&gt;");
    }
    assert '"' !in "&gt;" && '\'' !in "&gt;";
  }

  lemma EscapeHtmlQuot(x: char)
    requires x == '"'
    ensures EscapeHtml([x]) == "&quot;"
  {
    assert ReplaceAll(ReplaceAll(ReplaceAll(ReplaceAll([x], '&', "&amp;"), '<', "&lt;"), '>', "&gt;"), '"', "&quot;") == "&quot;" by {
      ReplaceAllSingle(x, '&', "&amp;");
      ReplaceAllSingle(x, '<', "&lt;");
      ReplaceAllSingle(x, '>', "&gt;");
      ReplaceAllSingle(x, '"', "&quot;");
    }
    assert '\'' !in "&quot;";
  }

  lemma EscapeHtmlApos(x: char)
    requires x == '\''
    ensures EscapeHtml([x]) == "&#039;"
  {
    ReplaceAllSingle(x, '&', "&amp;");
    ReplaceAllSingle(x, '<', "&lt;");
    ReplaceAllSingle(x, '>', "&gt;");
    ReplaceAllSingle(x, '"', "&quot;");
    ReplaceAllSingle(x, '\'', "&#039;");
  }

  lemma EscapeHtmlOne(x: char)
    ensures EscapeHtml([x]) == EscapeChar(x)
  {
    if x == '&' {
      EscapeHtmlAmpersand(x);
    } else if x == '<' {
      EscapeHtmlLt(x);
    } else if x == '>' {
      EscapeHtmlGt(x);
    } else if x == '"' {
      EscapeHtmlQuot(x);
    } else if x == '\'' {
      EscapeHtmlApos(x);
    } else {
      EscapeHtmlOrdinary(x);
    }
  }

  /** The replacement chain escapes per character: because `&` is replaced
      first, no entity produced by a later pass is escaped again. */
  lemma {:induction false} EscapeHtmlIsPerCharacter(s: string)
    ensures EscapeHtml(s) == EscapeEach(s)
  {
    if s != [] {
      assert s == [s[0]] + s[1..];
      EscapeHtmlAppend([s[0]], s[1..]);
      EscapeHtmlOne(s[0]);
      EscapeHtmlIsPerCharacter(s[1..]);
    }
  }

  lemma {:induction false} EscapeEachSafe(s: string)
    ensures forall k :: 0 <= k < |EscapeEach(s)| ==> !IsDangerous(EscapeEach(s)[k])
  {
    if s != [] {
      EscapeEachSafe(s[1..]);
      var h := EscapeChar(s[0]);
      assert forall k :: 0 <= k < |h| ==> !IsDangerous(h[k]);
    }
  }

  /** The escaped text contains none of `<`, `>`, `"`, `'`. */
  lemma EscapeHtmlSafe(s: string)
    ensures forall k :: 0 <= k < |EscapeHtml(s)| ==> !IsDangerous(EscapeHtml(s)[k])
  {
    EscapeHtmlIsPerCharacter(s);
    EscapeEachSafe(s);
  }

  /** Text with none of the five special characters, and "" in particular,
      comes back unchanged. */
  lemma EscapeHtmlPlain(s: string)
    requires forall k :: 0 <= k < |s| ==> !IsSpecial(s[k])
    ensures EscapeHtml(s) == s
  {
    EscapeHtmlIsPerCharacter(s);
    EscapeEachPlain(s);
  }

  lemma {:induction false} EscapeEachPlain(s: string)
    requires forall k :: 0 <= k < |s| ==> !IsSpecial(s[k])
    ensures EscapeEach(s) == s
  {
    if s != [] {
      EscapeEachPlain(s[1..]);
    }
  }

  /** Escaping lengthens the text exactly when it holds a special character,
      and then the result holds an `&`. */
  lemma {:induction false} EscapeEachGrows(s: string)
    ensures |EscapeEach(s)| >= |s|
    ensures (exists k :: 0 <= k < |s| && IsSpecial(s[k])) ==> |EscapeEach(s)| > |s| && '&' in EscapeEach(s)
  {
    if s != [] {
      EscapeEachGrows(s[1..]);
      if exists k :: 0 <= k < |s| && IsSpecial(s[k]) {
        var k :| 0 <= k < |s| && IsSpecial(s[k]);
        if k > 0 {
          assert IsSpecial(s[1..][k - 1]);
        }
      }
    }
  }

  /** Escaping is not idempotent: applying it twice equals applying it once
      only for text without any of the five special characters. */
  lemma EscapeHtmlIdempotentIff(s: string)
    ensures EscapeHtml(EscapeHtml(s)) == EscapeHtml(s) <==> forall k :: 0 <= k < |s| ==> !IsSpecial(s[k])
  {
    var t := EscapeHtml(s);
    EscapeHtmlIsPerCharacter(s);
    EscapeHtmlIsPerCharacter(t);
    EscapeEachGrows(s);
    EscapeEachGrows(t);
    if forall k :: 0 <= k < |s| ==> !IsSpecial(s[k]) {
      EscapeEachPlain(s);
    } else {
      var i :| 0 <= i < |t| && t[i] == '&';
      assert IsSpecial(t[i]);
    }
  }

  /** An existing entity is escaped again: with `t` = "amp;", the text
      "&amp;" becomes "&amp;amp;". */
  lemma EscapeHtmlReescapes(t: string)
    requires forall k :: 0 <= k < |t| ==> !IsSpecial(t[k])
    ensures EscapeHtml("&" + t) == "&amp;" + t
  {
    EscapeHtmlAmpersand('&');
    EscapeHtmlAppend("&", t);
    EscapeHtmlPlain(t);
  }
}
