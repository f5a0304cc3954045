/**
 * `String.equalsIgnoreCase` as the service uses it: always a literal ASCII
 * word compared with a possibly-null string read from an execution record.
 */
module JavaStrings {
  import opened Wrappers

  /**
   * `Character.toUpperCase`, exact on every character whose upper case is an
   * ASCII letter; every other character is left as it is.
   */
  function ToUpper(c: char): (r: char)
    ensures 'a' <= c <= 'z' ==> r as int == c as int - 32
    ensures 'A' <= r <= 'Z' ==> r == c || 'a' <= c <= 'z' || c == '\U{017F}' || c == '\U{0131}'
    ensures r != c ==> 'A' <= r <= 'Z'
  {
    if 'a' <= c <= 'z' then (c as int - 32) as char
    else if c == '\U{017F}' then 'S'  // LATIN SMALL LETTER LONG S
    else if c == '\U{0131}' then 'I'  // LATIN SMALL LETTER DOTLESS I
    else c
  }

  /**
   * `Character.toLowerCase`, exact on every character whose lower case is an
   * ASCII letter; every other character is left as it is.
   */
  function ToLower(c: char): (r: char)
    ensures 'A' <= c <= 'Z' ==> r as int == c as int + 32
    ensures 'a' <= r <= 'z' ==> r == c || 'A' <= c <= 'Z' || c == '\U{0130}' || c == '\U{212A}'
    ensures r != c ==> 'a' <= r <= 'z'
  {
    if 'A' <= c <= 'Z' then (c as int + 32) as char
    else if c == '\U{0130}' then 'i'  // LATIN CAPITAL LETTER I WITH DOT ABOVE
    else if c == '\U{212A}' then 'k'  // KELVIN SIGN
    else c
  }

  /** The per-character test of `String.regionMatches(true, ...)`. */
  predicate CharEqualsIgnoreCase(a: char, b: char)
    ensures CharEqualsIgnoreCase(a, b) ==> ToLower(ToUpper(a)) == ToLower(ToUpper(b))
  {
    a == b || ToUpper(a) == ToUpper(b) || ToLower(ToUpper(a)) == ToLower(ToUpper(b))
  }

  /** `a.equalsIgnoreCase(b)` for a non-null `b`: same length, every position matches. */
  predicate EqualsIgnoreCase(a: string, b: string)
    ensures EqualsIgnoreCase(a, b) ==>
              |a| == |b| && forall i :: 0 <= i < |a| ==> ToLower(ToUpper(a[i])) == ToLower(ToUpper(b[i]))
  {
    |a| == |b| && forall i :: 0 <= i < |a| ==> CharEqualsIgnoreCase(a[i], b[i])
  }

  /** `literal.equalsIgnoreCase(s)`, where `None` is Java's null and never matches. */
  predicate LiteralEqualsIgnoreCase(literal: string, s: Option<string>)
    ensures LiteralEqualsIgnoreCase(literal, s) ==> s.Some? && |s.value| == |literal|
  {
    s.Some? && EqualsIgnoreCase(literal, s.value)
  }

  predicate IsAsciiLetter(c: char) {
    'a' <= c <= 'z' || 'A' <= c <= 'Z'
  }

  function AsciiLower(c: char): (r: char)
    requires IsAsciiLetter(c)
    ensures 'a' <= r <= 'z'
    ensures r == c || r as int == c as int + 32
  {
    if 'A' <= c <= 'Z' then (c as int + 32) as char else c
  }

  /**
   * Every character that Java accepts in the place of the ASCII letter `w`
   * when case is ignored: its two ASCII cases, and the non-ASCII letters that
   * case-map onto it.
   */
  ghost function Spellings(w: char): set<char>
    requires IsAsciiLetter(w)
  {
    var lo := AsciiLower(w);
    {lo, (lo as int - 32) as char}
    + (if lo == 's' then {'\U{017F}'} else {})
    + (if lo == 'i' then {'\U{0130}', '\U{0131}'} else {})
    + (if lo == 'k' then {'\U{212A}'} else {})
  }

  lemma CharMatchesLetter(w: char, c: char)
    requires IsAsciiLetter(w)
    ensures CharEqualsIgnoreCase(w, c) <==> c in Spellings(w)
  {
  }

  /**
   * A word of ASCII letters equals `s` ignoring case exactly when `s` has the
   * same length and spells each position with one of that letter's spellings.
   */
  lemma {:induction false} WordMatches(word: string, s: string)
    requires forall i :: 0 <= i < |word| ==> IsAsciiLetter(word[i])
    ensures EqualsIgnoreCase(word, s) <==>
              |s| == |word| && forall i :: 0 <= i < |s| ==> s[i] in Spellings(word[i])
  {
    forall i | 0 <= i < |word| && i < |s|
      ensures CharEqualsIgnoreCase(word[i], s[i]) <==> s[i] in Spellings(word[i])
    {
      CharMatchesLetter(word[i], s[i]);
    }
  }

  /** Every string equals itself ignoring case; in particular each literal matches its own spelling. */
  lemma EqualsIgnoreCaseReflexive(s: string)
    ensures EqualsIgnoreCase(s, s)
  {
  }

  /** No string is both "Sell" and "Buy" ignoring case, so the two spot branches never overlap. */
  lemma SellAndBuyDisjoint(s: Option<string>)
    ensures !(LiteralEqualsIgnoreCase("Sell", s) && LiteralEqualsIgnoreCase("Buy", s))
  {
  }
}
