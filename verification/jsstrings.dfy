/** The JavaScript string operations the dashboard relies on, over strings of
    Unicode characters: `split` and `replace` with a string pattern, `trim`
    to test for a blank string, a global replace of one character, and the
    truthiness of a string field that may be missing. */
module JsStrings {

  /** A field that may be `undefined` or `null`. */
  datatype Option<T> = None | Some(value: T)

  /** JavaScript truthiness of a string field: present and non-empty. */
  predicate Truthy(s: Option<string>)
  {
    s.Some? && s.value != ""
  }

  /** `pat` occurs in `s` starting at position `i`. */
  predicate OccursAt(s: string, pat: string, i: int)
  {
    0 <= i && i + |pat| <= |s| && s[i..i + |pat|] == pat
  }

  /** No occurrence of `pat` anywhere in `s`. */
  predicate Free(s: string, pat: string)
  {
    forall i :: 0 <= i <= |s| - |pat| ==> !OccursAt(s, pat, i)
  }

  /** `s.indexOf(pat)`: the leftmost occurrence, if any. */
  function IndexOf(s: string, pat: string): (r: int)
    ensures -1 <= r <= |s|
    ensures r == -1 <==> Free(s, pat)
    ensures r != -1 ==> OccursAt(s, pat, r) && forall j :: 0 <= j < r ==> !OccursAt(s, pat, j)
    decreases |s|
  {
    if |s| < |pat| then -1
    else if s[..|pat|] == pat then
      assert OccursAt(s, pat, 0) by { assert s[0..|pat|] == s[..|pat|]; }
      0
    else
      var k := IndexOf(s[1..], pat);
      assert !OccursAt(s, pat, 0) by { assert s[0..|pat|] == s[..|pat|]; }
      assert forall j :: 1 <= j <= |s| - |pat| ==> (OccursAt(s, pat, j) <==> OccursAt(s[1..], pat, j - 1)) by {
        forall j | 1 <= j <= |s| - |pat| ensures OccursAt(s, pat, j) <==> OccursAt(s[1..], pat, j - 1) {
          OccursInTail(s, pat, j);
        }
      }
      if k == -1 then -1
      else
        assert OccursAt(s, pat, k + 1);
        k + 1
  }

  /** An occurrence after the first character is an occurrence in the tail. */
  lemma OccursInTail(s: string, pat: string, j: int)
    requires 1 <= j <= |s| - |pat|
    ensures OccursAt(s, pat, j) <==> OccursAt(s[1..], pat, j - 1)
  {
    var here, there := s[j..j + |pat|], s[1..][j - 1..j - 1 + |pat|];
    assert |here| == |there|;
    forall k | 0 <= k < |here|
      ensures here[k] == there[k]
    {
      assert here[k] == s[j + k] && there[k] == s[1..][j - 1 + k];
    }
    assert here == there;
  }

  /** `s.split(sep)` for a non-empty separator: the pieces between the
      occurrences of `sep`, found left to right without overlap. */
  function Split(s: string, sep: string): (parts: seq<string>)
    requires sep != []
    ensures |parts| >= 1
    ensures Free(s, sep) ==> parts == [s]
    decreases |s|
  {
    var i := IndexOf(s, sep);
    if i == -1 then [s] else [s[..i]] + Split(s[i + |sep|..], sep)
  }

  /** When the first occurrence of `sep` is the one right after `a`, the first
      piece is `a` and the rest is split on. */
  lemma SplitFirst(a: string, sep: string, b: string)
    requires sep != []
    requires Free(a + sep[..|sep| - 1], sep)
    ensures Split(a + sep + b, sep) == [a] + Split(b, sep)
  {
    var s := a + sep + b;
    assert OccursAt(s, sep, |a|) by {
      assert s[|a|..|a| + |sep|] == sep;
    }
    forall j | 0 <= j < |a|
      ensures !OccursAt(s, sep, j)
    {
      if OccursAt(s, sep, j) {
        assert s[j..j + |sep|] == (a + sep[..|sep| - 1])[j..j + |sep|];
        assert OccursAt(a + sep[..|sep| - 1], sep, j);
        assert false;
      }
    }
    assert IndexOf(s, sep) == |a|;
    assert s[..|a|] == a;
    assert s[|a| + |sep|..] == b;
  }

  /** Splitting text whose only occurrence of `sep` is the one right after `a`
      gives back `a` and `b`. */
  lemma SplitAtFirst(a: string, sep: string, b: string)
    requires sep != []
    requires Free(a + sep[..|sep| - 1], sep) && Free(b, sep)
    ensures Split(a + sep + b, sep) == [a, b]
  {
    SplitFirst(a, sep, b);
  }

  /** `s.replace(pat, rep)` with a string pattern: only the leftmost occurrence
      is replaced; without one, `s` is returned as is. */
  function ReplaceFirst(s: string, pat: string, rep: string): (r: string)
    ensures Free(s, pat) ==> r == s
  {
    var i := IndexOf(s, pat);
    if i == -1 then s else s[..i] + rep + s[i + |pat|..]
  }

  /** Removing a prefix that is there leaves the rest. */
  lemma StripPrefix(prefix: string, rest: string)
    requires prefix != []
    ensures ReplaceFirst(prefix + rest, prefix, "") == rest
  {
    var s := prefix + rest;
    assert s[..|prefix|] == prefix;
    assert IndexOf(s, prefix) == 0;
    assert s[|prefix|..] == rest;
  }

  /** The characters `trim()` removes: ECMAScript WhiteSpace and LineTerminator. */
  predicate IsJsWhitespace(c: char)
  {
    c == '\t' || c == '\n' || c == '\U{000B}' || c == '\U{000C}' || c == '\r' || c == ' ' ||
    c == '\U{00A0}' || c == '\U{1680}' || ('\U{2000}' <= c <= '\U{200A}') ||
    c == '\U{2028}' || c == '\U{2029}' || c == '\U{202F}' || c == '\U{205F}' ||
    c == '\U{3000}' || c == '\U{FEFF}'
  }

  /** `s.trim() === ''`. */
  predicate IsBlank(s: string)
  {
    forall i :: 0 <= i < |s| ==> IsJsWhitespace(s[i])
  }

  /** `s.replace(/c/g, rep)` for a single character `c`. */
  function ReplaceAllChar(s: string, c: char, rep: string): string
  {
    if s == [] then []
    else (if s[0] == c then rep else [s[0]]) + ReplaceAllChar(s[1..], c, rep)
  }

  /** A replacement without the character leaves none of it behind. */
  lemma {:induction false} ReplaceAllCharRemoves(s: string, c: char, rep: string)
    requires c !in rep
    ensures c !in ReplaceAllChar(s, c, rep)
  {
    if s != [] {
      ReplaceAllCharRemoves(s[1..], c, rep);
    }
  }

  /** Text without the character is left as it is. */
  lemma {:induction false} ReplaceAllCharFree(s: string, c: char, rep: string)
    requires c !in s
    ensures ReplaceAllChar(s, c, rep) == s
  {
    if s != [] {
      ReplaceAllCharFree(s[1..], c, rep);
      assert s == [s[0]] + s[1..];
    }
  }
}
