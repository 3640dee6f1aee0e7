/**
 * `escapeHtml` of the demonstration server (vulnerableDemo.js): five global
 * single-character replacements, `&` first, then `<`, `>`, `"` and `'`.
 *
 * The function is modelled as written, a chain of five ReplaceAll passes, and
 * proved equal to an independent per-character reference (EscapeEach), from
 * which the safety properties follow.
 */
module HtmlEscape {

  /** `s.replace(/c/g, rep)`: every occurrence of the character `c` replaced by `rep`. */
  function ReplaceAll(s: string, c: char, rep: string): (r: string)
    ensures c !in s ==> r == s
  {
    if s == [] then [] else (if s[0] == c then rep else [s[0]]) + ReplaceAll(s[1..], c, rep)
  }

  /** A global replacement acts on the two halves of a string independently. */
  lemma {:induction false} ReplaceAllAppend(a: string, b: string, c: char, rep: string)
    ensures ReplaceAll(a + b, c, rep) == ReplaceAll(a, c, rep) + ReplaceAll(b, c, rep)
  {
    if a != [] {
      assert (a + b)[1..] == a[1..] + b;
      ReplaceAllAppend(a[1..], b, c, rep);
    } else {
      assert a + b == b;
    }
  }

  predicate IsSpecial(c: char) {
    c == '&' || c == '<' || c == '>' || c == '"' || c == '\''
  }

  /** The characters that must never survive escaping. */
  predicate IsMarkup(c: char) {
    c == '<' || c == '>' || c == '"' || c == '\''
  }

  /** vulnerableDemo.js `escapeHtml`, pass by pass in the source's order. */
  function EscapeHtml(s: string): string
  {
    var amp := ReplaceAll(s, '&', "&amp;");
    var lt := ReplaceAll(amp, '<', "&lt;");
    var gt := ReplaceAll(lt, '>', "&gt;");
    var quot := ReplaceAll(gt, '"', "&quot;");
    ReplaceAll(quot, '\'', "&#39;")
  }

  /** Reference definition: the entity each character becomes. */
  function Entity(c: char): (e: string)
    ensures |e| >= 1
    ensures IsSpecial(c) <==> |e| > 1
  {
    match c
    case '&' => "&amp;"
    case '<' => "&lt;"
    case '>' => "&gt;"
    case '"' => "&quot;"
    case '\'' => "&#39;"
    case _ => [c]
  }

  /** Reference definition: each character replaced by its entity, independently of the others. */
  function EscapeEach(s: string): string
  {
    if s == [] then [] else Entity(s[0]) + EscapeEach(s[1..])
  }

  /** Escaping distributes over concatenation. */
  lemma EscapeHtmlAppend(a: string, b: string)
    ensures EscapeHtml(a + b) == EscapeHtml(a) + EscapeHtml(b)
  {
    var a1, b1 := ReplaceAll(a, '&', "&amp;"), ReplaceAll(b, '&', "&amp;");
    ReplaceAllAppend(a, b, '&', "&amp;");
    var a2, b2 := ReplaceAll(a1, '<', "&lt;"), ReplaceAll(b1, '<', "&lt;");
    ReplaceAllAppend(a1, b1, '<', "&lt;");
    var a3, b3 := ReplaceAll(a2, '>', "&gt;"), ReplaceAll(b2, '>', "&gt;");
    ReplaceAllAppend(a2, b2, '>', "&gt;");
    var a4, b4 := ReplaceAll(a3, '"', "&quot;"), ReplaceAll(b3, '"', "&quot;");
    ReplaceAllAppend(a3, b3, '"', "&quot;");
    ReplaceAllAppend(a4, b4, '\'', "&#39;");
  }

  /** On a single character the five passes produce exactly that character's entity. */
  lemma EscapeHtmlChar(c: char)
    ensures EscapeHtml([c]) == Entity(c)
  {
    var e := Entity(c);
    assert ReplaceAll([c], '&', "&amp;") == (if c == '&' then "&amp;" else [c]);
    if c == '&' {
      assert '<' !in e && '>' !in e && '"' !in e && '\'' !in e;
    } else if c == '<' {
      assert ReplaceAll([c], '<', "&lt;") == e;
      assert '>' !in e && '"' !in e && '\'' !in e;
    } else if c == '>' {
      assert ReplaceAll([c], '>', "&gt;") == e;
      assert '"' !in e && '\'' !in e;
    } else if c == '"' {
      assert ReplaceAll([c], '"', "&quot;") == e;
      assert '\'' !in e;
    } else if c == '\'' {
      assert ReplaceAll([c], '\'', "&#39;") == e;
    }
  }

  /** The chain of passes is the per-character map: `&` going first means no entity is escaped twice. */
  lemma {:induction false} EscapeHtmlIsPerChar(s: string)
    ensures EscapeHtml(s) == EscapeEach(s)
  {
    if s != [] {
      assert s == [s[0]] + s[1..];
      EscapeHtmlAppend([s[0]], s[1..]);
      EscapeHtmlChar(s[0]);
      EscapeHtmlIsPerChar(s[1..]);
    }
  }

  lemma {:induction false} EscapeEachNoMarkup(s: string)
    ensures forall i :: 0 <= i < |EscapeEach(s)| ==> !IsMarkup(EscapeEach(s)[i])
  {
    if s != [] {
      var e, rest := Entity(s[0]), EscapeEach(s[1..]);
      EscapeEachNoMarkup(s[1..]);
      assert forall i :: 0 <= i < |e| ==> !IsMarkup(e[i]);
      assert forall i :: |e| <= i < |e + rest| ==> (e + rest)[i] == rest[i - |e|];
    }
  }

  /** No `<`, `>`, `"` or `'` survives escaping. */
  lemma NoMarkupRemains(s: string)
    ensures forall i :: 0 <= i < |EscapeHtml(s)| ==> !IsMarkup(EscapeHtml(s)[i])
  {
    EscapeHtmlIsPerChar(s);
    EscapeEachNoMarkup(s);
  }

  /** One of the five entities starts at the front of `t`. */
  predicate StartsWithEntity(t: string) {
    "&amp;" <= t || "&lt;" <= t || "&gt;" <= t || "&quot;" <= t || "&#39;" <= t
  }

  lemma {:induction false} EscapeEachAmpersands(s: string)
    ensures forall i :: 0 <= i < |EscapeEach(s)| && EscapeEach(s)[i] == '&' ==> StartsWithEntity(EscapeEach(s)[i..])
  {
    if s != [] {
      var e, rest := Entity(s[0]), EscapeEach(s[1..]);
      var r := e + rest;
      EscapeEachAmpersands(s[1..]);
      forall i | 0 <= i < |r| && r[i] == '&'
        ensures StartsWithEntity(r[i..])
      {
        if i < |e| {
          assert i == 0 && e <= r;
        } else {
          assert r[i..] == rest[i - |e|..];
        }
      }
    }
  }

  /** Every `&` in the output begins one of the five entities: no stray or doubled ampersand. */
  lemma AmpersandsStartEntities(s: string)
    ensures forall i :: 0 <= i < |EscapeHtml(s)| && EscapeHtml(s)[i] == '&' ==> StartsWithEntity(EscapeHtml(s)[i..])
  {
    EscapeHtmlIsPerChar(s);
    EscapeEachAmpersands(s);
  }

  predicate NoSpecial(s: string) {
    forall i :: 0 <= i < |s| ==> !IsSpecial(s[i])
  }

  lemma {:induction false} EscapeEachLength(s: string)
    ensures |EscapeEach(s)| >= |s|
    ensures |EscapeEach(s)| == |s| <==> NoSpecial(s)
    ensures NoSpecial(s) ==> EscapeEach(s) == s
  {
    if s != [] {
      EscapeEachLength(s[1..]);
      assert NoSpecial(s) <==> !IsSpecial(s[0]) && NoSpecial(s[1..]) by {
        if !IsSpecial(s[0]) && NoSpecial(s[1..]) {
          forall i | 0 <= i < |s| ensures !IsSpecial(s[i]) {
            if i > 0 { assert s[i] == s[1..][i - 1]; }
          }
        }
      }
      if NoSpecial(s) {
        assert s == [s[0]] + s[1..];
      }
    }
  }

  /** The output is never shorter than the input, and has the same length exactly when nothing needed escaping. */
  lemma EscapeHtmlLength(s: string)
    ensures |EscapeHtml(s)| >= |s|
    ensures |EscapeHtml(s)| == |s| <==> NoSpecial(s)
  {
    EscapeHtmlIsPerChar(s);
    EscapeEachLength(s);
  }

  /** A string is returned unchanged exactly when it holds none of the five special characters. */
  lemma EscapeHtmlFixedPoints(s: string)
    ensures EscapeHtml(s) == s <==> NoSpecial(s)
  {
    EscapeHtmlIsPerChar(s);
    EscapeEachLength(s);
  }

  lemma EntityPrefixDetermines(c: char, d: char, x: string, y: string)
    requires Entity(c) + x == Entity(d) + y
    ensures c == d && x == y
  {
    var e, f := Entity(c), Entity(d);
    assert e[0] == (e + x)[0] == (f + y)[0] == f[0];
    if IsSpecial(c) && IsSpecial(d) {
      assert e[1] == (e + x)[1] == (f + y)[1] == f[1];
    }
    assert |e| == |f|;
    assert x == (e + x)[|e|..] == (f + y)[|f|..] == y;
  }

  lemma {:induction false} EscapeEachInjective(a: string, b: string)
    requires EscapeEach(a) == EscapeEach(b)
    ensures a == b
  {
    if a != [] && b != [] {
      EntityPrefixDetermines(a[0], b[0], EscapeEach(a[1..]), EscapeEach(b[1..]));
      EscapeEachInjective(a[1..], b[1..]);
      assert a == [a[0]] + a[1..] && b == [b[0]] + b[1..];
    }
  }

  /** Escaping loses no information: distinct inputs give distinct outputs. */
  lemma EscapeHtmlInjective(a: string, b: string)
    ensures EscapeHtml(a) == EscapeHtml(b) ==> a == b
  {
    EscapeHtmlIsPerChar(a);
    EscapeHtmlIsPerChar(b);
    if EscapeHtml(a) == EscapeHtml(b) {
      EscapeEachInjective(a, b);
    }
  }
}
