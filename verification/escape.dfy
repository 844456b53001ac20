/**
 * Output escaping applied to every piece of user-supplied text before it is
 * placed into markup (`escapeHtml`, app.js:773-781).
 */
module Escape {

  /** `s.replace(/t/g, entity)` for a single-character pattern: every `t` becomes `entity`. */
  function ReplaceAll(s: string, t: char, entity: string): (r: string)
    ensures forall c :: c in r ==> (c in s && c != t) || c in entity
    decreases |s|
  {
    if s == [] then []
    else (if s[0] == t then entity else [s[0]]) + ReplaceAll(s[1..], t, entity)
  }

  /**
   * `escapeHtml` as written: five global replacements in sequence, ampersand first.
   * The result never contains a character that could open a tag or close an attribute.
   */
  function EscapeHtml(s: string): (r: string)
    ensures '<' !in r && '>' !in r && '"' !in r && '\'' !in r
  {
    var amp := ReplaceAll(s, '&', "&amp;");
    var lt := ReplaceAll(amp, '<', "&lt;");
    var gt := ReplaceAll(lt, '>', "&gt;");
    var quot := ReplaceAll(gt, '"', "&quot;");
    ReplaceAll(quot, '\'', "&#039;")
  }

  /** The entity a single character stands for after escaping. */
  function EscapeChar(c: char): string
  {
    match c
    case '&' => "&amp;"
    case '<' => "&lt;"
    case '>' => "&gt;"
    case '"' => "&quot;"
    case '\'' => "&#039;"
    case _ => [c]
  }

  /** Reference definition: escape each character on its own and concatenate. */
  function EscapeEach(s: string): string
    decreases |s|
  {
    if s == [] then [] else EscapeChar(s[0]) + EscapeEach(s[1..])
  }

  /** Decoding of the five entities `escapeHtml` produces; everything else is kept. */
  function Unescape(s: string): string
    decreases |s|
  {
    if s == [] then []
    else if "&amp;" <= s then "&" + Unescape(s[5..])
    else if "&lt;" <= s then "<" + Unescape(s[4..])
    else if "&gt;" <= s then ">" + Unescape(s[4..])
    else if "&quot;" <= s then "\"" + Unescape(s[6..])
    else if "&#039;" <= s then "'" + Unescape(s[6..])
    else [s[0]] + Unescape(s[1..])
  }

  lemma {:induction false} ReplaceAllAppend(a: string, b: string, t: char, entity: string)
    ensures ReplaceAll(a + b, t, entity) == ReplaceAll(a, t, entity) + ReplaceAll(b, t, entity)
    decreases |a|
  {
    if a == [] {
      assert a + b == b;
    } else {
      assert (a + b)[0] == a[0];
      assert (a + b)[1..] == a[1..] + b;
      ReplaceAllAppend(a[1..], b, t, entity);
    }
  }

  lemma {:induction false} ReplaceAllAbsent(s: string, t: char, entity: string)
    requires t !in s
    ensures ReplaceAll(s, t, entity) == s
    decreases |s|
  {
    if s != [] {
      ReplaceAllAbsent(s[1..], t, entity);
    }
  }

  /** Escaping distributes over concatenation, since each pass does. */
  lemma EscapeHtmlAppend(a: string, b: string)
    ensures EscapeHtml(a + b) == EscapeHtml(a) + EscapeHtml(b)
  {
    var amp := ReplaceAll(a + b, '&', "&amp;");
    ReplaceAllAppend(a, b, '&', "&amp;");
    var a1, b1 := ReplaceAll(a, '&', "&amp;"), ReplaceAll(b, '&', "&amp;");
    ReplaceAllAppend(a1, b1, '<', "&lt;");
    var a2, b2 := ReplaceAll(a1, '<', "&lt;"), ReplaceAll(b1, '<', "&lt;");
    ReplaceAllAppend(a2, b2, '>', "&gt;");
    var a3, b3 := ReplaceAll(a2, '>', "&gt;"), ReplaceAll(b2, '>', "&gt;");
    ReplaceAllAppend(a3, b3, '"', "&quot;");
    var a4, b4 := ReplaceAll(a3, '"', "&quot;"), ReplaceAll(b3, '"', "&quot;");
    ReplaceAllAppend(a4, b4, '\'', "&#039;");
  }

  lemma ReplaceAllSingle(c: char, t: char, entity: string)
    ensures ReplaceAll([c], t, entity) == if c == t then entity else [c]
  {
    assert [c][1..] == [];
  }

  /** Text without the four later pattern characters passes the last four replacements unchanged. */
  lemma KeepFromLt(e: string)
    requires '<' !in e && '>' !in e && '"' !in e && '\'' !in e
    ensures ReplaceAll(ReplaceAll(ReplaceAll(ReplaceAll(e, '<', "&lt;"), '>', "&gt;"), '"', "&quot;"), '\'', "&#039;") == e
  {
    ReplaceAllAbsent(e, '<', "&lt;");
    KeepFromGt(e);
  }

  lemma KeepFromGt(e: string)
    requires '>' !in e && '"' !in e && '\'' !in e
    ensures ReplaceAll(ReplaceAll(ReplaceAll(e, '>', "&gt;"), '"', "&quot;"), '\'', "&#039;") == e
  {
    ReplaceAllAbsent(e, '>', "&gt;");
    KeepFromQuot(e);
  }

  lemma KeepFromQuot(e: string)
    requires '"' !in e && '\'' !in e
    ensures ReplaceAll(ReplaceAll(e, '"', "&quot;"), '\'', "&#039;") == e
  {
    ReplaceAllAbsent(e, '"', "&quot;");
    ReplaceAllAbsent(e, '\'', "&#039;");
  }

  /** On one character the five chained passes produce exactly that character's entity. */
  lemma EscapeHtmlChar(c: char)
    ensures EscapeHtml([c]) == EscapeChar(c)
  {
    var amp := ReplaceAll([c], '&', "&amp;");
    ReplaceAllSingle(c, '&', "&amp;");
    if c == '&' {
      KeepFromLt(amp);
    } else {
      var lt := ReplaceAll(amp, '<', "&lt;");
      ReplaceAllSingle(c, '<', "&lt;");
      if c == '<' {
        KeepFromGt(lt);
      } else {
        var gt := ReplaceAll(lt, '>', "&gt;");
        ReplaceAllSingle(c, '>', "&gt;");
        if c == '>' {
          KeepFromQuot(gt);
        } else {
          var quot := ReplaceAll(gt, '"', "&quot;");
          ReplaceAllSingle(c, '"', "&quot;");
          if c == '"' {
            ReplaceAllAbsent(quot, '\'', "&#039;");
          } else {
            ReplaceAllSingle(c, '\'', "&#039;");
          }
        }
      }
    }
  }

  /**
   * Because the ampersand pass runs first, the chained passes never re-escape an
   * entity an earlier pass produced: the result is the per-character escape.
   */
  lemma {:induction false} EscapeHtmlIsPerCharacter(s: string)
    ensures EscapeHtml(s) == EscapeEach(s)
    decreases |s|
  {
    if s == [] {
      assert ReplaceAll(s, '&', "&amp;") == [];
    } else {
      assert s == [s[0]] + s[1..];
      EscapeHtmlAppend([s[0]], s[1..]);
      EscapeHtmlChar(s[0]);
      EscapeHtmlIsPerCharacter(s[1..]);
    }
  }

  lemma UnescapeEscapeChar(c: char, rest: string)
    ensures Unescape(EscapeChar(c) + rest) == [c] + Unescape(rest)
  {
    var t := EscapeChar(c) + rest;
    if c == '&' {
      assert "&amp;" <= t && t[5..] == rest;
    } else if c == '<' {
      assert t[1] == 'l';
      assert !("&amp;" <= t) && "&lt;" <= t && t[4..] == rest;
    } else if c == '>' {
      assert t[1] == 'g';
      assert !("&amp;" <= t) && !("&lt;" <= t) && "&gt;" <= t && t[4..] == rest;
    } else if c == '"' {
      assert t[1] == 'q';
      assert !("&amp;" <= t) && !("&lt;" <= t) && !("&gt;" <= t) && "&quot;" <= t && t[6..] == rest;
    } else if c == '\'' {
      assert t[1] == '#';
      assert !("&amp;" <= t) && !("&lt;" <= t) && !("&gt;" <= t) && !("&quot;" <= t);
      assert "&#039;" <= t && t[6..] == rest;
    } else {
      assert t[0] == c && t[1..] == rest;
    }
  }

  /** Decoding the five entities recovers exactly the text that was escaped. */
  lemma {:induction false} UnescapeEscapeHtml(s: string)
    ensures Unescape(EscapeHtml(s)) == s
    decreases |s|
  {
    EscapeHtmlIsPerCharacter(s);
    if s != [] {
      UnescapeEscapeChar(s[0], EscapeEach(s[1..]));
      EscapeHtmlIsPerCharacter(s[1..]);
      UnescapeEscapeHtml(s[1..]);
    }
  }
}
