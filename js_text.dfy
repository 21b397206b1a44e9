/**
 * The JavaScript string and array operations the title renderer relies on:
 * the whitespace class `\s`, `String.prototype.trim`, `split(/\s+/)`,
 * `split("")`, `Array.prototype.join` and `Array.prototype.slice(0, end)`.
 * A string is a sequence of characters.
 */
module JsText {

  /**
   * ECMAScript WhiteSpace and LineTerminator characters. The regular
   * expression class `\s` and `trim()` both use exactly this set.
   */
  predicate IsSpace(c: char) {
    || c == ' ' || c == '\t' || c == '\n' || c == '\U{000B}' || c == '\U{000C}' || c == '\r'
    || c == '\U{00A0}' || c == '\U{1680}' || ('\U{2000}' <= c <= '\U{200A}')
    || c == '\U{2028}' || c == '\U{2029}' || c == '\U{202F}' || c == '\U{205F}'
    || c == '\U{3000}' || c == '\U{FEFF}'
  }

  /** The whitespace class written out code point by code point. */
  lemma WhitespaceSet(c: char)
    ensures IsSpace(c) <==> c in {
      ' ', '\t', '\n', '\U{000B}', '\U{000C}', '\r', '\U{00A0}', '\U{1680}',
      '\U{2000}', '\U{2001}', '\U{2002}', '\U{2003}', '\U{2004}', '\U{2005}',
      '\U{2006}', '\U{2007}', '\U{2008}', '\U{2009}', '\U{200A}',
      '\U{2028}', '\U{2029}', '\U{202F}', '\U{205F}', '\U{3000}', '\U{FEFF}'}
  {
  }

  /** No character of `s` is whitespace. */
  predicate NoSpace(s: string) {
    forall i :: 0 <= i < |s| ==> !IsSpace(s[i])
  }

  /** Every character of `s` is whitespace (the empty string included). */
  predicate IsBlank(s: string) {
    forall i :: 0 <= i < |s| ==> IsSpace(s[i])
  }

  /** Length of the longest whitespace prefix of `s`. */
  function LeadingSpaces(s: string): (n: nat)
    ensures n <= |s|
    ensures forall i :: 0 <= i < n ==> IsSpace(s[i])
    ensures n < |s| ==> !IsSpace(s[n])
  {
    if s == [] || !IsSpace(s[0]) then 0 else 1 + LeadingSpaces(s[1..])
  }

  /** Length of the longest prefix of `s` that holds no whitespace. */
  function LeadingNonSpaces(s: string): (n: nat)
    ensures n <= |s|
    ensures forall i :: 0 <= i < n ==> !IsSpace(s[i])
    ensures n < |s| ==> IsSpace(s[n])
  {
    if s == [] || IsSpace(s[0]) then 0 else 1 + LeadingNonSpaces(s[1..])
  }

  /** Length of the longest whitespace suffix of `s`. */
  function TrailingSpaces(s: string): (n: nat)
    ensures n <= |s|
    ensures forall i :: |s| - n <= i < |s| ==> IsSpace(s[i])
    ensures n < |s| ==> !IsSpace(s[|s| - 1 - n])
  {
    if s == [] || !IsSpace(s[|s| - 1]) then 0 else 1 + TrailingSpaces(s[..|s| - 1])
  }

  /**
   * `s.trim()`: `s` without its leading and trailing whitespace. The result
   * is empty exactly when `s` is blank, so `if (s.trim())` tests for a
   * non-whitespace character.
   */
  function Trim(s: string): (r: string)
    ensures |r| <= |s|
    ensures r == [] <==> IsBlank(s)
    ensures r != [] ==> !IsSpace(r[0]) && !IsSpace(r[|r| - 1])
    ensures LeadingSpaces(s) + |r| <= |s| && r == s[LeadingSpaces(s)..LeadingSpaces(s) + |r|]
    ensures IsBlank(s[LeadingSpaces(s) + |r|..])
  {
    var a := LeadingSpaces(s);
    if a == |s| then [] else s[a..|s| - TrailingSpaces(s[a..])]
  }

  /**
   * `parts.join(sep)`: the parts in order with `sep` between neighbours, so
   * it starts with the first part; no parts give "".
   */
  function Join(parts: seq<string>, sep: string): (r: string)
    ensures parts == [] ==> r == []
    ensures |parts| >= 1 ==> |r| >= |parts[0]| && r[..|parts[0]|] == parts[0]
  {
    if parts == [] then []
    else if |parts| == 1 then parts[0]
    else parts[0] + sep + Join(parts[1..], sep)
  }

  /**
   * `s.split(/\s+/)`: the pieces of `s` between maximal runs of whitespace.
   * There is always at least one piece; the first (last) piece is empty when
   * `s` starts (ends) with whitespace, and `"".split(/\s+/)` is `[""]`.
   */
  function SplitWords(s: string): (words: seq<string>)
    ensures |words| >= 1
    ensures forall i :: 0 <= i < |words| ==> NoSpace(words[i])
    decreases |s|
  {
    if LeadingNonSpaces(s) == |s| then [s]
    else [FirstWord(s)] + SplitWords(AfterGap(s))
  }

  /** The text before the first whitespace character. */
  function FirstWord(s: string): (w: string)
    ensures NoSpace(w)
  {
    s[..LeadingNonSpaces(s)]
  }

  /** The text after the first whitespace run; it starts with non-whitespace. */
  function AfterGap(s: string): (r: string)
    requires LeadingNonSpaces(s) < |s|
    ensures |r| < |s|
    ensures r != [] ==> !IsSpace(r[0])
  {
    var i := LeadingNonSpaces(s);
    s[i + LeadingSpaces(s[i..])..]
  }

  /** `s.split("")`: one single-character string per character of `s`. */
  function SplitChars(s: string): (letters: seq<string>)
    ensures |letters| == |s|
    ensures forall i :: 0 <= i < |s| ==> letters[i] == [s[i]]
  {
    if s == [] then [] else [[s[0]]] + SplitChars(s[1..])
  }

  /**
   * `xs.slice(0, end)`: a negative `end` counts back from the end of `xs`,
   * an `end` past the end is cut to the length.
   */
  function Take<T>(xs: seq<T>, end: int): (r: seq<T>)
    ensures 0 <= end ==> |r| == if end <= |xs| then end else |xs|
    ensures end < 0 ==> |r| == if -end <= |xs| then |xs| + end else 0
    ensures |r| <= |xs| && r == xs[..|r|]
  {
    if end < 0 then
      (if -end <= |xs| then xs[..|xs| + end] else [])
    else if end <= |xs| then xs[..end]
    else xs
  }

  /** A string without whitespace is a single piece. */
  lemma SplitWordsNoSpace(s: string)
    requires NoSpace(s)
    ensures SplitWords(s) == [s]
  {
    assert LeadingNonSpaces(s) == |s|;
  }

  /** `LeadingNonSpaces` is the first whitespace position, or the length. */
  lemma {:induction false} LeadingNonSpacesAt(s: string, n: nat)
    requires n <= |s| && (forall i :: 0 <= i < n ==> !IsSpace(s[i])) && (n < |s| ==> IsSpace(s[n]))
    ensures LeadingNonSpaces(s) == n
    decreases n
  {
    if n > 0 {
      assert !IsSpace(s[0]);
      assert forall i :: 0 <= i < n - 1 ==> s[1..][i] == s[i + 1];
      LeadingNonSpacesAt(s[1..], n - 1);
    }
  }

  /** `LeadingSpaces` is the first non-whitespace position, or the length. */
  lemma {:induction false} LeadingSpacesAt(s: string, n: nat)
    requires n <= |s| && (forall i :: 0 <= i < n ==> IsSpace(s[i])) && (n < |s| ==> !IsSpace(s[n]))
    ensures LeadingSpaces(s) == n
    decreases n
  {
    if n > 0 {
      assert IsSpace(s[0]);
      assert forall i :: 0 <= i < n - 1 ==> s[1..][i] == s[i + 1];
      LeadingSpacesAt(s[1..], n - 1);
    }
  }

  /** Cutting a concatenation at the seam gives back its two parts. */
  lemma CutAtSeam(a: string, b: string)
    ensures (a + b)[..|a|] == a && (a + b)[|a|..] == b
  {
  }

  /**
   * A word, then a whitespace run of any length and kind, then a string
   * starting with non-whitespace, split into the word followed by the pieces
   * of that string: spaces, tabs and line breaks all separate words alike.
   */
  lemma SplitWordsGap(w: string, g: string, rest: string)
    requires NoSpace(w) && g != [] && IsBlank(g) && (rest != [] ==> !IsSpace(rest[0]))
    ensures SplitWords(w + g + rest) == [w] + SplitWords(rest)
  {
    var tail := g + rest;
    var s := w + tail;
    assert w + g + rest == s;
    CutAtSeam(w, tail);
    CutAtSeam(g, rest);
    assert forall i :: 0 <= i < |w| ==> s[i] == w[i];
    assert s[|w|] == g[0];
    LeadingNonSpacesAt(s, |w|);
    assert forall i :: 0 <= i < |g| ==> tail[i] == g[i];
    LeadingSpacesAt(tail, |g|);
    assert AfterGap(s) == rest;
  }

  /**
   * Splitting undoes joining with a single space, for words that are
   * non-empty and hold no whitespace.
   */
  lemma {:induction false} SplitJoin(words: seq<string>)
    requires |words| >= 1
    requires forall i :: 0 <= i < |words| ==> words[i] != [] && NoSpace(words[i])
    ensures SplitWords(Join(words, " ")) == words
  {
    if |words| == 1 {
      SplitWordsNoSpace(words[0]);
    } else {
      var rest := Join(words[1..], " ");
      assert Join(words, " ") == words[0] + " " + rest;
      assert rest[0] == words[1][0];
      SplitWordsGap(words[0], " ", rest);
      SplitJoin(words[1..]);
    }
  }

  /**
   * Only the first and the last piece of `SplitWords` can be empty: every
   * inner piece was bounded by whitespace on both sides.
   */
  lemma {:induction false} SplitWordsInnerNonEmpty(s: string, k: nat)
    requires 0 < k < |SplitWords(s)| - 1
    ensures SplitWords(s)[k] != []
    decreases |s|
  {
    if LeadingNonSpaces(s) < |s| {
      var rest := AfterGap(s);
      SplitWordsLater(s, k);
      if k == 1 {
        SecondPieceNonEmpty(rest);
      } else {
        SplitWordsInnerNonEmpty(rest, k - 1);
      }
    }
  }

  /** The pieces after the first are those of the text after the first whitespace run. */
  lemma SplitWordsLater(s: string, k: nat)
    requires LeadingNonSpaces(s) < |s| && 0 < k < |SplitWords(s)|
    ensures |SplitWords(AfterGap(s))| == |SplitWords(s)| - 1
    ensures SplitWords(s)[k] == SplitWords(AfterGap(s))[k - 1]
  {
  }

  /** A text starting with non-whitespace and splitting into several pieces has a non-empty first piece. */
  lemma SecondPieceNonEmpty(rest: string)
    requires |SplitWords(rest)| >= 2 && (rest != [] ==> !IsSpace(rest[0]))
    ensures SplitWords(rest)[0] != []
  {
    SplitWordsFirstEmpty(rest);
  }

  /** The first piece of `SplitWords(s)` is empty exactly when `s` is empty or starts with whitespace. */
  lemma SplitWordsFirstEmpty(s: string)
    ensures SplitWords(s)[0] == [] <==> (s == [] || IsSpace(s[0]))
  {
  }

  /** Joining the letters of `s` with no separator gives `s` back. */
  lemma {:induction false} JoinLetters(s: string)
    ensures Join(SplitChars(s), "") == s
  {
    var letters := SplitChars(s);
    if |s| == 1 {
      assert s == [s[0]];
    } else if |s| >= 2 {
      assert letters[1..] == SplitChars(s[1..]);
      JoinLetters(s[1..]);
      assert Join(letters, "") == letters[0] + "" + Join(letters[1..], "");
      assert s == [s[0]] + s[1..];
    }
  }

  /** Joining a prefix of the letters of `s` with no separator gives that prefix of `s`. */
  lemma JoinChars(s: string, k: nat)
    requires k <= |s|
    ensures Join(SplitChars(s)[..k], "") == s[..k]
  {
    assert SplitChars(s)[..k] == SplitChars(s[..k]);
    JoinLetters(s[..k]);
  }

  /** A string without whitespace is blank only when it is empty. */
  lemma NonSpaceNotBlank(s: string)
    requires NoSpace(s)
    ensures IsBlank(s) ==> s == []
  {
    if s != [] {
      assert !IsSpace(s[0]);
    }
  }

  /** A string joined from pieces without whitespace is blank exactly when every piece is empty. */
  lemma {:induction false} JoinBlank(parts: seq<string>)
    requires forall i :: 0 <= i < |parts| ==> NoSpace(parts[i])
    ensures IsBlank(Join(parts, " ")) <==> forall i :: 0 <= i < |parts| ==> parts[i] == []
  {
    if |parts| > 1 {
      JoinBlank(parts[1..]);
      var rest := Join(parts[1..], " ");
      assert Join(parts, " ") == parts[0] + " " + rest;
      if IsBlank(Join(parts, " ")) {
        assert forall j :: 0 <= j < |parts[0]| ==> Join(parts, " ")[j] == parts[0][j];
        NonSpaceNotBlank(parts[0]);
        assert forall j :: 0 <= j < |rest| ==> Join(parts, " ")[|parts[0]| + 1 + j] == rest[j];
        assert IsBlank(rest);
        assert forall i :: 1 <= i < |parts| ==> parts[i] == parts[1..][i - 1];
      }
      if forall i :: 0 <= i < |parts| ==> parts[i] == [] {
        assert forall i :: 0 <= i < |parts| - 1 ==> parts[1..][i] == [];
        assert Join(parts, " ") == " " + rest;
        assert forall j :: 0 <= j < |rest| ==> Join(parts, " ")[1 + j] == rest[j];
      }
    } else if |parts| == 1 {
      NonSpaceNotBlank(parts[0]);
    }
  }

  /** Every piece of a blank string's split is empty. */
  lemma {:induction false} SplitWordsBlank(s: string)
    requires IsBlank(s)
    ensures forall i :: 0 <= i < |SplitWords(s)| ==> SplitWords(s)[i] == []
    decreases |s|
  {
    if s != [] {
      assert LeadingNonSpaces(s) == 0;
      var gap := LeadingSpaces(s);
      var rest := s[gap..];
      assert SplitWords(s) == [[]] + SplitWords(rest);
      SplitWordsBlank(rest);
    }
  }
}
