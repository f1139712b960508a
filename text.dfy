/** The Python string operations the journaling widget relies on:
    `str.lower()`, the `in` substring test, `str.strip()`, the regular
    expression substitution `re.sub(r"[^\w\s]", "", s)`, `str.join` and
    decimal formatting of counts. */
module Text {

  /** Python's whitespace: `str.isspace()`, which is also what `\s` matches
      in a `str` pattern. */
  predicate IsSpace(c: char) {
    || ('\t' <= c <= '\r')
    || ('\U{1C}' <= c <= '\U{1F}')
    || c == ' ' || c == '\U{85}' || c == '\U{A0}' || c == '\U{1680}'
    || ('\U{2000}' <= c <= '\U{200A}')
    || c == '\U{2028}' || c == '\U{2029}' || c == '\U{202F}' || c == '\U{205F}'
    || c == '\U{3000}'
  }

  predicate IsAsciiLetter(c: char) {
    ('a' <= c <= 'z') || ('A' <= c <= 'Z')
  }

  /** A character matched by `\w`, restricted to ASCII. */
  predicate IsWordChar(c: char) {
    IsAsciiLetter(c) || ('0' <= c <= '9') || c == '_'
  }

  function LowerChar(c: char): char {
    if 'A' <= c <= 'Z' then (c as int + 32) as char else c
  }

  /** `s.lower()` on ASCII letters. */
  function Lower(s: string): string {
    seq(|s|, i requires 0 <= i < |s| => LowerChar(s[i]))
  }

  /** `needle` stands in `hay` from position `i` on. */
  predicate OccursAt(hay: string, needle: string, i: int) {
    0 <= i && i + |needle| <= |hay| && hay[i..i + |needle|] == needle
  }

  /** Python's `needle in hay` for strings. */
  predicate Contains(hay: string, needle: string) {
    exists i | 0 <= i <= |hay| - |needle| :: OccursAt(hay, needle, i)
  }

  /** `any(word in hay for word in words)`. */
  predicate ContainsAny(hay: string, words: seq<string>) {
    exists w | w in words :: Contains(hay, w)
  }

  lemma ContainsMiddle(a: string, x: string, b: string)
    ensures Contains(a + x + b, x)
  {
    var s := a + x + b;
    assert s[|a|..|a| + |x|] == x;
    assert OccursAt(s, x, |a|);
  }

  lemma ContainsPrefix(x: string, rest: string)
    ensures Contains(x + rest, x)
  {
    assert OccursAt(x + rest, x, 0);
  }

  lemma ContainsPrepend(a: string, b: string, x: string)
    requires Contains(b, x)
    ensures Contains(a + b, x)
  {
    var i :| 0 <= i <= |b| - |x| && OccursAt(b, x, i);
    assert (a + b)[|a| + i..|a| + i + |x|] == b[i..i + |x|];
    assert OccursAt(a + b, x, |a| + i);
  }

  lemma ContainsWord(hay: string, w: string, words: seq<string>)
    requires Contains(hay, w) && w in words
    ensures ContainsAny(hay, words)
  {
  }

  /** Number of leading whitespace characters. */
  function LeadingSpaces(s: string): (n: nat)
    ensures n <= |s|
    ensures forall k :: 0 <= k < n ==> IsSpace(s[k])
    ensures n == |s| || !IsSpace(s[n])
  {
    if s == [] || !IsSpace(s[0]) then 0 else 1 + LeadingSpaces(s[1..])
  }

  /** Number of trailing whitespace characters. */
  function TrailingSpaces(s: string): (n: nat)
    ensures n <= |s|
    ensures forall k :: |s| - n <= k < |s| ==> IsSpace(s[k])
    ensures n == |s| || !IsSpace(s[|s| - 1 - n])
  {
    if s == [] || !IsSpace(s[|s| - 1]) then 0 else 1 + TrailingSpaces(s[..|s| - 1])
  }

  /** `s.strip()`: the longest slice of `s` that neither starts nor ends with
      whitespace, everything cut off on either side being whitespace. */
  function Strip(s: string): (r: string)
    ensures exists i, j :: 0 <= i <= j <= |s| && r == s[i..j]
                           && (forall k :: 0 <= k < i ==> IsSpace(s[k]))
                           && (forall k :: j <= k < |s| ==> IsSpace(s[k]))
    ensures r == [] || (!IsSpace(r[0]) && !IsSpace(r[|r| - 1]))
  {
    var i := LeadingSpaces(s);
    var t := s[i..];
    var j := i + |t| - TrailingSpaces(t);
    assert t[..|t| - TrailingSpaces(t)] == s[i..j];
    s[i..j]
  }

  lemma StripUnchanged(s: string)
    requires s == [] || (!IsSpace(s[0]) && !IsSpace(s[|s| - 1]))
    ensures Strip(s) == s
  {
    assert LeadingSpaces(s) == 0;
    assert s[0..] == s;
  }

  /** Stripping twice is stripping once. */
  lemma StripIdempotent(s: string)
    ensures Strip(Strip(s)) == Strip(s)
  {
    StripUnchanged(Strip(s));
  }

  predicate Kept(c: char) {
    IsWordChar(c) || IsSpace(c)
  }

  /** `re.sub(r"[^\w\s]", "", s)`: drops every character that is neither a
      word character nor whitespace and keeps the others in order. */
  function KeepWordsAndSpaces(s: string): (r: string)
    ensures forall c :: c in r ==> Kept(c)
    ensures forall c :: Kept(c) ==> multiset(r)[c] == multiset(s)[c]
    ensures (forall c :: c in s ==> Kept(c)) ==> r == s
  {
    if s == [] then []
    else
      var rest := KeepWordsAndSpaces(s[1..]);
      assert s == [s[0]] + s[1..];
      if Kept(s[0]) then [s[0]] + rest else rest
  }

  /** The filter works character by character: filtering a concatenation
      filters each part and keeps them in order. */
  lemma {:induction false} KeepWordsAndSpacesAppend(a: string, b: string)
    ensures KeepWordsAndSpaces(a + b) == KeepWordsAndSpaces(a) + KeepWordsAndSpaces(b)
  {
    if a == [] {
      assert a + b == b;
    } else {
      assert (a + b)[0] == a[0] && (a + b)[1..] == a[1..] + b;
      KeepWordsAndSpacesAppend(a[1..], b);
    }
  }

  /** A text made only of dropped characters, such as an emoji, filters to
      nothing. */
  lemma {:induction false} KeepWordsAndSpacesDropsAll(s: string)
    requires forall c :: c in s ==> !Kept(c)
    ensures KeepWordsAndSpaces(s) == []
  {
    if s != [] {
      assert s[0] in s;
      assert forall c :: c in s[1..] ==> c in s;
      KeepWordsAndSpacesDropsAll(s[1..]);
    }
  }

  /** `re.sub(r"[^\w\s]", "", s).strip()`: the body of `clean_tone` and
      `clean_theme`. */
  function CleanLabel(s: string): (r: string)
    ensures forall c :: c in r ==> Kept(c)
    ensures r == [] || (!IsSpace(r[0]) && !IsSpace(r[|r| - 1]))
  {
    var kept := KeepWordsAndSpaces(s);
    var r := Strip(kept);
    assert forall c :: c in r ==> c in kept;
    r
  }

  /** Cleaning a cleaned label changes nothing. */
  lemma CleanLabelIdempotent(s: string)
    ensures CleanLabel(CleanLabel(s)) == CleanLabel(s)
  {
    var r := CleanLabel(s);
    assert KeepWordsAndSpaces(r) == r;
    StripUnchanged(r);
  }

  /** A label made of letters only, such as "Gentle", is returned as it is. */
  lemma CleanLabelKeepsLetters(s: string)
    requires forall c :: c in s ==> IsAsciiLetter(c)
    ensures CleanLabel(s) == s
  {
    assert KeepWordsAndSpaces(s) == s;
    if s != [] {
      assert s[0] in s && s[|s| - 1] in s;
    }
    StripUnchanged(s);
  }

  /** A label shown with its icon, such as "\U{1F331} Growth", is cleaned back
      to the plain label: the icon's characters and the space go. */
  lemma CleanLabelDropsIcon(icon: string, text: string)
    requires forall c :: c in icon ==> !Kept(c)
    requires forall c :: c in text ==> IsAsciiLetter(c)
    ensures CleanLabel(icon + " " + text) == text
  {
    var spaced := " " + text;
    var shown := icon + spaced;
    assert icon + " " + text == shown;
    KeepWordsAndSpacesAppend(icon, spaced);
    KeepWordsAndSpacesAppend(" ", text);
    KeepWordsAndSpacesDropsAll(icon);
    assert KeepWordsAndSpaces(" ") == " ";
    assert KeepWordsAndSpaces(text) == text;
    assert KeepWordsAndSpaces(shown) == spaced;
    StripOneLeadingSpace(text);
    assert CleanLabel(shown) == Strip(spaced);
  }

  /** Stripping a space in front of a word gives the word. */
  lemma StripOneLeadingSpace(text: string)
    requires forall c :: c in text ==> IsAsciiLetter(c)
    ensures Strip(" " + text) == text
  {
    var s := " " + text;
    assert s[1..] == text;
    if text != [] {
      assert text[0] in text && text[|text| - 1] in text;
      assert LeadingSpaces(text) == 0;
    }
    assert LeadingSpaces(s) == 1;
    assert TrailingSpaces(text) == 0;
    assert s[1..1 + |text|] == text;
  }

  /** `sep.join(parts)`. */
  function Join(sep: string, parts: seq<string>): string {
    if parts == [] then ""
    else if |parts| == 1 then parts[0]
    else parts[0] + sep + Join(sep, parts[1..])
  }

  function DigitChar(d: nat): char
    requires d < 10
  {
    "0123456789"[d]
  }

  /** `str(n)` for a non-negative integer. */
  function NatToString(n: nat): (s: string)
    ensures |s| >= 1
    ensures forall c :: c in s ==> '0' <= c <= '9'
  {
    if n < 10 then [DigitChar(n)] else NatToString(n / 10) + [DigitChar(n % 10)]
  }
}
