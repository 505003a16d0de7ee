/** The escaping stage of the dashboard's small Markdown renderer: before any
    Markdown rule adds tags, every '&', '<' and '>' of the text becomes an
    HTML entity, '&' first. */
module Markdown {
  import opened JsStrings

  /** The entity each special character is written as, or the character itself. */
  function EscapeChar(c: char): string
  {
    if c == '&' then "&amp;" else if c == '<' then "&lt;" else if c == '>' then "&gt;" else [c]
  }

  /** Escaping character by character: the reference the chained replaces are checked against. */
  function EscapeEach(s: string): (r: string)
    ensures '<' !in r && '>' !in r
  {
    if s == [] then [] else EscapeChar(s[0]) + EscapeEach(s[1..])
  }

  /** The chained replaces `.replace(/&/g, "&amp;").replace(/</g, "&lt;").replace(/>/g, "&gt;")`. */
  function Escape(s: string): string
  {
    ReplaceAllChar(ReplaceAllChar(ReplaceAllChar(s, '&', "&amp;"), '<', "&lt;"), '>', "&gt;")
  }

  /** `parseMarkdown`'s first stage: missing or empty text gives "". */
  function EscapeStage(markdown: Option<string>): (html: string)
    ensures !Truthy(markdown) ==> html == ""
    ensures Truthy(markdown) ==> html == Escape(markdown.value)
  {
    if Truthy(markdown) then Escape(markdown.value) else ""
  }

  /** Replacing '&' first makes the chain agree with escaping each character once. */
  lemma {:induction false} EscapeIsEscapeEach(s: string)
    ensures Escape(s) == EscapeEach(s)
  {
    if s != [] {
      EscapeIsEscapeEach(s[1..]);
      assert s == [s[0]] + s[1..];
      EscapeCons(s[0], s[1..]);
    }
  }

  /** The chain works on a leading character and the rest separately. */
  lemma EscapeCons(c: char, rest: string)
    ensures Escape([c] + rest) == EscapeChar(c) + Escape(rest)
  {
    var a1 := ReplaceAllChar([c], '&', "&amp;");
    var r1 := ReplaceAllChar(rest, '&', "&amp;");
    ReplaceAllCharAppend([c], rest, '&', "&amp;");
    var a2 := ReplaceAllChar(a1, '<', "&lt;");
    var r2 := ReplaceAllChar(r1, '<', "&lt;");
    ReplaceAllCharAppend(a1, r1, '<', "&lt;");
    ReplaceAllCharAppend(a2, r2, '>', "&gt;");
    EscapeSingle(c);
  }

  /** The chain on one character gives its entity. */
  lemma EscapeSingle(c: char)
    ensures Escape([c]) == EscapeChar(c)
  {
    if c == '&' {
      EscapeAmpersand(c);
    } else {
      EscapeOther(c);
    }
  }

  lemma EscapeAmpersand(c: char)
    requires c == '&'
    ensures Escape([c]) == EscapeChar(c)
  {
    ReplaceOne(c, '&', "&amp;");
    ReplaceAllCharFree("&amp;", '<', "&lt;");
    ReplaceAllCharFree("&amp;", '>', "&gt;");
  }

  lemma EscapeOther(c: char)
    requires c != '&'
    ensures Escape([c]) == EscapeChar(c)
  {
    ReplaceOne(c, '&', "&amp;");
    ReplaceOne(c, '<', "&lt;");
    if c == '<' {
      ReplaceAllCharFree("&lt;", '>', "&gt;");
    } else {
      ReplaceOne(c, '>', "&gt;");
    }
  }

  /** Replacing in a one-character string. */
  lemma ReplaceOne(c: char, x: char, rep: string)
    ensures ReplaceAllChar([c], x, rep) == if c == x then rep else [c]
  {
    ReplaceAllCharCons(c, [], x, rep);
    assert [c] + [] == [c];
  }

  lemma ReplaceAllCharCons(c: char, s: string, x: char, rep: string)
    ensures ReplaceAllChar([c] + s, x, rep) == (if c == x then rep else [c]) + ReplaceAllChar(s, x, rep)
  {
    assert ([c] + s)[0] == c;
    assert ([c] + s)[1..] == s;
  }

  lemma {:induction false} ReplaceAllCharAppend(a: string, b: string, x: char, rep: string)
    ensures ReplaceAllChar(a + b, x, rep) == ReplaceAllChar(a, x, rep) + ReplaceAllChar(b, x, rep)
  {
    if a == [] {
      assert a + b == b;
    } else {
      var head := if a[0] == x then rep else [a[0]];
      var tail := a[1..];
      assert (a + b)[0] == a[0] && (a + b)[1..] == tail + b;
      ReplaceAllCharAppend(tail, b, x, rep);
      assert ReplaceAllChar(a + b, x, rep) == head + (ReplaceAllChar(tail, x, rep) + ReplaceAllChar(b, x, rep));
      assert ReplaceAllChar(a, x, rep) == head + ReplaceAllChar(tail, x, rep);
    }
  }

  /** The escaped text holds no raw '<' or '>', so the text cannot open or close a tag. */
  lemma EscapeLeavesNoTags(s: string)
    ensures '<' !in Escape(s) && '>' !in Escape(s)
  {
    EscapeIsEscapeEach(s);
  }

  /** Turning the three entities back into their characters. */
  function Unescape(s: string): string
  {
    if s == [] then []
    else if |s| >= 5 && s[..5] == "&amp;" then "&" + Unescape(s[5..])
    else if |s| >= 4 && s[..4] == "&lt;" then "<" + Unescape(s[4..])
    else if |s| >= 4 && s[..4] == "&gt;" then ">" + Unescape(s[4..])
    else [s[0]] + Unescape(s[1..])
  }

  /** No text is lost: the escaped text decodes back to the original. */
  lemma {:induction false} UnescapeEscape(s: string)
    ensures Unescape(Escape(s)) == s
  {
    EscapeIsEscapeEach(s);
    UnescapeEscapeEach(s);
  }

  lemma {:induction false} UnescapeEscapeEach(s: string)
    ensures Unescape(EscapeEach(s)) == s
  {
    if s != [] {
      UnescapeEscapeEach(s[1..]);
      var e := EscapeChar(s[0]);
      var rest := EscapeEach(s[1..]);
      assert EscapeEach(s) == e + rest;
      var t := e + rest;
      if s[0] == '&' {
        assert t[..5] == "&amp;" && t[5..] == rest;
      } else if s[0] == '<' {
        assert t[..4] == "&lt;" && t[4..] == rest;
        assert t[1] == 'l';
        assert |t| < 5 || t[..5] != "&amp;" by { if |t| >= 5 { assert t[..5][1] == 'l'; } }
      } else if s[0] == '>' {
        assert t[..4] == "&gt;" && t[4..] == rest;
        assert |t| < 5 || t[..5] != "&amp;" by { if |t| >= 5 { assert t[..5][1] == 'g'; } }
        assert t[..4][1] == 'g';
      } else {
        assert t[0] == s[0] && t[1..] == rest;
        assert |t| < 5 || t[..5] != "&amp;" by { if |t| >= 5 { assert t[..5][0] == s[0]; } }
        assert |t| < 4 || t[..4] != "&lt;" by { if |t| >= 4 { assert t[..4][0] == s[0]; } }
        assert |t| < 4 || t[..4] != "&gt;" by { if |t| >= 4 { assert t[..4][0] == s[0]; } }
      }
      assert s == [s[0]] + s[1..];
    }
  }

  /** Replacing '<' before '&' would escape the ampersand of each new entity a second time. */
  lemma WrongOrderDoubleEscapes(rest: string)
    requires '&' !in rest && '<' !in rest
    ensures ReplaceAllChar(ReplaceAllChar("<" + rest, '<', "&lt;"), '&', "&amp;") == "&amp;lt;" + rest
  {
    var lt := "lt;" + rest;
    calc {
      ReplaceAllChar(ReplaceAllChar("<" + rest, '<', "&lt;"), '&', "&amp;");
      { ReplaceLeading('<', rest, "&lt;"); }
      ReplaceAllChar("&lt;" + rest, '&', "&amp;");
      { assert "&lt;" + rest == ['&'] + lt; }
      ReplaceAllChar(['&'] + lt, '&', "&amp;");
      { ReplaceLeading('&', lt, "&amp;"); }
      "&amp;" + lt;
      "&amp;lt;" + rest;
    }
  }

  /** Replacing a character that occurs only in front. */
  lemma ReplaceLeading(c: char, rest: string, rep: string)
    requires c !in rest
    ensures ReplaceAllChar([c] + rest, c, rep) == rep + rest
  {
    ReplaceAllCharCons(c, rest, c, rep);
    ReplaceAllCharFree(rest, c, rep);
  }
}
