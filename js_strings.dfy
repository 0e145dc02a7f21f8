/**
 * The three string operations the type lookup relies on, with JavaScript's
 * meaning: trim, toUpperCase and includes.
 */
module JsStrings {

  /** WhiteSpace and LineTerminator characters: what trim removes. */
  predicate IsJsWhiteSpace(c: char) {
    c == '\t' || c == '\n' || c == '\U{000B}' || c == '\U{000C}' || c == '\r' || c == ' '
    || c == '\U{00A0}' || c == '\U{1680}' || ('\U{2000}' <= c <= '\U{200A}')
    || c == '\U{2028}' || c == '\U{2029}' || c == '\U{202F}' || c == '\U{205F}'
    || c == '\U{3000}' || c == '\U{FEFF}'
  }

  predicate AllWhiteSpace(s: string) {
    forall k :: 0 <= k < |s| ==> IsJsWhiteSpace(s[k])
  }

  /** s without its leading white space. */
  function TrimStart(s: string): (r: string)
    ensures |r| <= |s| && r == s[|s| - |r|..]
    ensures AllWhiteSpace(s[..|s| - |r|])
    ensures r == [] || !IsJsWhiteSpace(r[0])
  {
    if s != [] && IsJsWhiteSpace(s[0]) then
      var r := TrimStart(s[1..]);
      DropFirst(s, |s| - |r|);
      AllWhiteSpaceCons(s[0], s[1..][..|s| - |r| - 1]);
      r
    else s
  }

  lemma DropFirst(s: string, n: int)
    requires 0 < n <= |s|
    ensures s[1..][n - 1..] == s[n..] && s[..n] == [s[0]] + s[1..][..n - 1]
  {
  }

  lemma AllWhiteSpaceCons(c: char, w: string)
    requires IsJsWhiteSpace(c) && AllWhiteSpace(w)
    ensures AllWhiteSpace([c] + w)
  {
  }

  /** s without its trailing white space. */
  function TrimEnd(s: string): (r: string)
    ensures |r| <= |s| && r == s[..|r|]
    ensures AllWhiteSpace(s[|r|..])
    ensures r == [] || !IsJsWhiteSpace(r[|r| - 1])
  {
    if s != [] && IsJsWhiteSpace(s[|s| - 1]) then TrimEnd(s[..|s| - 1]) else s
  }

  /**
   * trim: s without its leading and trailing white space; what is left
   * neither starts nor ends with white space.
   */
  function Trim(s: string): (r: string)
    ensures |r| <= |s|
    ensures r == [] || (!IsJsWhiteSpace(r[0]) && !IsJsWhiteSpace(r[|r| - 1]))
  {
    TrimEnd(TrimStart(s))
  }

  /** Leading white space before a non-blank start is all trimStart removes. */
  lemma {:induction false} TrimStartPadded(w: string, s: string)
    requires AllWhiteSpace(w) && (s == [] || !IsJsWhiteSpace(s[0]))
    ensures TrimStart(w + s) == s
  {
    if w == [] {
      assert w + s == s;
    } else {
      assert (w + s)[0] == w[0];
      assert (w + s)[1..] == w[1..] + s;
      TrimStartPadded(w[1..], s);
    }
  }

  /** Trailing white space after a non-blank end is all trimEnd removes. */
  lemma {:induction false} TrimEndPadded(s: string, w: string)
    requires AllWhiteSpace(w) && (s == [] || !IsJsWhiteSpace(s[|s| - 1]))
    ensures TrimEnd(s + w) == s
  {
    if w == [] {
      assert s + w == s;
    } else {
      var v := w[..|w| - 1];
      assert (s + w)[|s + w| - 1] == w[|w| - 1];
      assert (s + w)[..|s + w| - 1] == s + v;
      TrimEndPadded(s, v);
    }
  }

  /** trim takes away exactly the white space around a string that neither starts nor ends with it. */
  lemma TrimPadded(w1: string, s: string, w2: string)
    requires AllWhiteSpace(w1) && AllWhiteSpace(w2)
    requires s != [] && !IsJsWhiteSpace(s[0]) && !IsJsWhiteSpace(s[|s| - 1])
    ensures Trim(w1 + s + w2) == s
  {
    assert w1 + s + w2 == w1 + (s + w2);
    assert (s + w2)[0] == s[0];
    TrimStartPadded(w1, s + w2);
    TrimEndPadded(s, w2);
  }

  /** A string of white space only trims to nothing. */
  lemma TrimAllWhite(w: string)
    requires AllWhiteSpace(w)
    ensures Trim(w) == []
  {
    assert w + [] == w;
    TrimStartPadded(w, []);
  }

  /**
   * The upper-case form of one character: a-z become A-Z; the characters
   * whose upper-case form is plain ASCII (sharp s, dotless i, long s and the
   * Latin ligatures U+FB00-U+FB06) become that form; every other character
   * is kept.
   */
  function UpperOf(c: char): (r: seq<char>)
    ensures |r| >= 1
  {
    if 'a' <= c <= 'z' then [(c as int - 32) as char]
    else if c == '\U{00DF}' then "SS"
    else if c == '\U{0131}' then "I"
    else if c == '\U{017F}' then "S"
    else if c == '\U{FB00}' then "FF"
    else if c == '\U{FB01}' then "FI"
    else if c == '\U{FB02}' then "FL"
    else if c == '\U{FB03}' then "FFI"
    else if c == '\U{FB04}' then "FFL"
    else if c == '\U{FB05}' || c == '\U{FB06}' then "ST"
    else [c]
  }

  /** toUpperCase: every character replaced by its upper-case form. */
  function ToUpper(s: string): (r: string)
    ensures |r| >= |s|
  {
    if s == [] then [] else UpperOf(s[0]) + ToUpper(s[1..])
  }

  lemma {:induction false} ToUpperAppend(a: string, b: string)
    ensures ToUpper(a + b) == ToUpper(a) + ToUpper(b)
  {
    if a == [] {
      assert a + b == b;
    } else {
      assert (a + b)[0] == a[0];
      assert (a + b)[1..] == a[1..] + b;
      ToUpperAppend(a[1..], b);
    }
  }

  /** Upper-casing an upper-case form changes nothing. */
  lemma UpperOfUpper(c: char)
    ensures ToUpper(UpperOf(c)) == UpperOf(c)
  {
    var u := UpperOf(c);
    if |u| == 1 {
      assert ToUpper(u) == UpperOf(u[0]) + ToUpper(u[1..]);
    } else if |u| == 2 {
      assert ToUpper(u) == UpperOf(u[0]) + (UpperOf(u[1]) + ToUpper(u[2..]));
    } else {
      assert ToUpper(u) == UpperOf(u[0]) + (UpperOf(u[1]) + (UpperOf(u[2]) + ToUpper(u[3..])));
    }
  }

  /** Upper-casing is idempotent. */
  lemma {:induction false} ToUpperIdempotent(s: string)
    ensures ToUpper(ToUpper(s)) == ToUpper(s)
  {
    if s != [] {
      ToUpperAppend(UpperOf(s[0]), ToUpper(s[1..]));
      UpperOfUpper(s[0]);
      ToUpperIdempotent(s[1..]);
    }
  }

  /** The upper-case form of a character that is not white space neither starts nor ends with white space. */
  lemma UpperOfEnds(c: char)
    requires !IsJsWhiteSpace(c)
    ensures !IsJsWhiteSpace(UpperOf(c)[0]) && !IsJsWhiteSpace(UpperOf(c)[|UpperOf(c)| - 1])
  {
  }

  /** The upper-case form of a string starts with the whole upper-case form of its first character. */
  lemma ToUpperFirst(t: string)
    requires t != []
    ensures var e := UpperOf(t[0]); |ToUpper(t)| >= |e| && ToUpper(t)[..|e|] == e
  {
  }

  /** The upper-case form of a string ends with the whole upper-case form of its last character. */
  lemma ToUpperLast(t: string)
    requires t != []
    ensures var u := ToUpper(t); var e := UpperOf(t[|t| - 1]); |u| >= |e| && u[|u| - |e|..] == e
  {
    var n := |t|;
    assert t == t[..n - 1] + [t[n - 1]];
    ToUpperAppend(t[..n - 1], [t[n - 1]]);
    assert ToUpper([t[n - 1]]) == UpperOf(t[n - 1]) + ToUpper([]);
  }

  /** s neither starts nor ends with white space. */
  predicate NonBlankEnds(s: string) {
    s == [] || (!IsJsWhiteSpace(s[0]) && !IsJsWhiteSpace(s[|s| - 1]))
  }

  /** Upper-casing keeps a string's ends free of white space. */
  lemma ToUpperEnds(t: string)
    requires t != [] && NonBlankEnds(t)
    ensures var u := ToUpper(t); u != [] && NonBlankEnds(u)
  {
    UpperOfEnds(t[0]);
    UpperOfEnds(t[|t| - 1]);
    ToUpperFirst(t);
    ToUpperLast(t);
  }

  /** Trimming the upper-case form of a string with non-blank ends changes nothing. */
  lemma TrimOfUpper(t: string)
    requires NonBlankEnds(t)
    ensures Trim(ToUpper(t)) == ToUpper(t)
  {
    if t != [] {
      ToUpperEnds(t);
    }
    TrimUnchanged(ToUpper(t));
  }

  /** A string that neither starts nor ends with white space trims to itself. */
  lemma TrimUnchanged(u: string)
    requires NonBlankEnds(u)
    ensures Trim(u) == u
  {
    assert TrimStart(u) == u;
    assert TrimEnd(u) == u;
  }

  /** includes: sub occurs in s at some position. */
  predicate Includes(s: string, sub: string) {
    exists i | 0 <= i <= |s| - |sub| :: OccursAt(s, sub, i)
  }

  predicate OccursAt(s: string, sub: string, i: int) {
    0 <= i <= |s| - |sub| && s[i..i + |sub|] == sub
  }

  lemma IncludesMiddle(a: string, sub: string, b: string)
    ensures Includes(a + sub + b, sub)
  {
    var s := a + sub + b;
    assert OccursAt(s, sub, |a|);
  }
}
