/**
 * The HTML escaper of the extension: `esc` in the lab-spec generator and
 * `escapeHtml` in the base document generator are the same four chained
 * global replacements, `&` first, then `<`, `>` and `"`.
 */
module HtmlEscape {
  import opened Strings

  /** The entity each special character becomes; every other character stands for itself. */
  function EscapeChar(c: char): string {
    if c == '&' then "&amp;"
    else if c == '<' then "&lt;"
    else if c == '>' then "&gt;"
    else if c == '"' then "&quot;"
    else [c]
  }

  /** `esc(str)` / `escapeHtml(str)`. */
  function Escape(s: string): (r: string)
    ensures '<' !in r && '>' !in r && '"' !in r
    ensures '&' !in s && '<' !in s && '>' !in s && '"' !in s ==> r == s
  {
    var amp := ReplaceAllChar(s, '&', "&amp;");
    var lt := ReplaceAllChar(amp, '<', "&lt;");
    ReplaceAllCharAbsent(lt, '>', "&gt;", '<');
    var gt := ReplaceAllChar(lt, '>', "&gt;");
    ReplaceAllCharAbsent(gt, '"', "&quot;", '<');
    ReplaceAllCharAbsent(gt, '"', "&quot;", '>');
    ReplaceAllChar(gt, '"', "&quot;")
  }

  /** Escaping distributes over concatenation. */
  lemma EscapeConcat(a: string, b: string)
    ensures Escape(a + b) == Escape(a) + Escape(b)
  {
    ReplaceAllCharConcat(a, b, '&', "&amp;");
    var a1, b1 := ReplaceAllChar(a, '&', "&amp;"), ReplaceAllChar(b, '&', "&amp;");
    ReplaceAllCharConcat(a1, b1, '<', "&lt;");
    var a2, b2 := ReplaceAllChar(a1, '<', "&lt;"), ReplaceAllChar(b1, '<', "&lt;");
    ReplaceAllCharConcat(a2, b2, '>', "&gt;");
    var a3, b3 := ReplaceAllChar(a2, '>', "&gt;"), ReplaceAllChar(b2, '>', "&gt;");
    ReplaceAllCharConcat(a3, b3, '"', "&quot;");
  }

  /** One character is escaped to exactly its entity. */
  lemma EscapeOneChar(c: char)
    ensures Escape([c]) == EscapeChar(c)
  {
  }

  /**
   * The chained replacements act as one simultaneous per-character
   * substitution: because `&` is replaced first, the `&` of the entities that
   * the later replacements introduce is never escaped again.
   */
  lemma {:induction false} EscapeIsPerCharacter(s: string)
    ensures Escape(s) == MapChars(s, EscapeChar)
  {
    if |s| > 0 {
      assert s == [s[0]] + s[1..];
      EscapeConcat([s[0]], s[1..]);
      EscapeOneChar(s[0]);
      EscapeIsPerCharacter(s[1..]);
    }
  }

  /** Decode the four entities `Escape` produces; every other character stands for itself. */
  function Unescape(s: string): string {
    if |s| == 0 then ""
    else if |s| >= 5 && s[..5] == "&amp;" then "&" + Unescape(s[5..])
    else if |s| >= 4 && s[..4] == "&lt;" then "<" + Unescape(s[4..])
    else if |s| >= 4 && s[..4] == "&gt;" then ">" + Unescape(s[4..])
    else if |s| >= 6 && s[..6] == "&quot;" then "\"" + Unescape(s[6..])
    else [s[0]] + Unescape(s[1..])
  }

  /** Decoding after one escaped character gives that character back. */
  lemma UnescapeAfterChar(c: char, rest: string)
    ensures Unescape(EscapeChar(c) + rest) == [c] + Unescape(rest)
  {
    if c == '&' {
      UnescapeAmp(rest);
    } else if c == '<' {
      UnescapeLt(rest);
    } else if c == '>' {
      UnescapeGt(rest);
    } else if c == '"' {
      UnescapeQuot(rest);
    } else {
      UnescapePlain(c, rest);
    }
  }

  lemma UnescapeAmp(rest: string)
    ensures Unescape("&amp;" + rest) == "&" + Unescape(rest)
  {
    var t := "&amp;" + rest;
    assert t[..5] == "&amp;" && t[5..] == rest;
  }

  lemma UnescapeLt(rest: string)
    ensures Unescape("&lt;" + rest) == "<" + Unescape(rest)
  {
    var t := "&lt;" + rest;
    assert t[1] == 'l' && (|t| >= 5 ==> t[..5][1] != "&amp;"[1]);
    assert t[..4] == "&lt;" && t[4..] == rest;
  }

  lemma UnescapeGt(rest: string)
    ensures Unescape("&gt;" + rest) == ">" + Unescape(rest)
  {
    var t := "&gt;" + rest;
    assert t[1] == 'g' && (|t| >= 5 ==> t[..5][1] != "&amp;"[1]) && t[..4][1] != "&lt;"[1];
    assert t[..4] == "&gt;" && t[4..] == rest;
  }

  lemma UnescapeQuot(rest: string)
    ensures Unescape("&quot;" + rest) == "\"" + Unescape(rest)
  {
    var t := "&quot;" + rest;
    assert t[1] == 'q' && t[..5][1] != "&amp;"[1] && t[..4][1] != "&lt;"[1] && t[..4][1] != "&gt;"[1];
    assert t[..6] == "&quot;" && t[6..] == rest;
  }

  lemma UnescapePlain(c: char, rest: string)
    requires c != '&'
    ensures Unescape([c] + rest) == [c] + Unescape(rest)
  {
    var t := [c] + rest;
    assert t[0] == c && t[1..] == rest;
    assert |t| >= 4 ==> t[..4][0] == c;
    assert |t| >= 5 ==> t[..5][0] == c;
    assert |t| >= 6 ==> t[..6][0] == c;
  }

  /** Escaping loses nothing: the escaped text decodes back to the original. */
  lemma {:induction false} UnescapeEscape(s: string)
    ensures Unescape(Escape(s)) == s
  {
    EscapeIsPerCharacter(s);
    UnescapeMapChars(s);
  }

  lemma {:induction false} UnescapeMapChars(s: string)
    ensures Unescape(MapChars(s, EscapeChar)) == s
  {
    if |s| > 0 {
      UnescapeAfterChar(s[0], MapChars(s[1..], EscapeChar));
      UnescapeMapChars(s[1..]);
      assert [s[0]] + s[1..] == s;
    }
  }

  /** Two texts escape alike only when they are equal. */
  lemma EscapeInjective(s: string, t: string)
    requires Escape(s) == Escape(t)
    ensures s == t
  {
    UnescapeEscape(s);
    UnescapeEscape(t);
  }
}
