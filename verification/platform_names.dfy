/**
 * Normalisation of a platform name into a key of the `platforms` object of a
 * game summary: `name.lower().replace(" ", "_")` (src/api/main.py:70).
 * Case folding is restricted to ASCII letters.
 */
module PlatformNames {

  /** An ASCII upper-case letter. */
  predicate IsUpper(c: char) {
    'A' <= c <= 'Z'
  }

  /** ASCII lower-casing of one character; every other character is kept. */
  function LowerChar(c: char): char {
    if IsUpper(c) then (c as int + 32) as char else c
  }

  /** `s.lower()`: every ASCII upper-case letter becomes its lower-case letter. */
  function Lower(s: string): (r: string)
    ensures |r| == |s|
    ensures forall i :: 0 <= i < |s| ==> r[i] == LowerChar(s[i])
    ensures forall i :: 0 <= i < |r| ==> !IsUpper(r[i])
  {
    if s == [] then [] else [LowerChar(s[0])] + Lower(s[1..])
  }

  /** `s.replace(target, replacement)` for one-character strings. */
  function ReplaceChar(s: string, target: char, replacement: char): (r: string)
    ensures |r| == |s|
    ensures forall i :: 0 <= i < |s| ==> r[i] == (if s[i] == target then replacement else s[i])
    ensures target != replacement ==> target !in r
  {
    if s == [] then []
    else [if s[0] == target then replacement else s[0]] + ReplaceChar(s[1..], target, replacement)
  }

  /** What one character of a platform name becomes in its key. */
  function FoldChar(c: char): char {
    if c == ' ' then '_' else LowerChar(c)
  }

  /** The key a platform name is stored under: lower-cased, spaces turned into `_`. */
  function NormalizeName(name: string): (key: string)
    ensures |key| == |name|
    ensures forall i :: 0 <= i < |name| ==> key[i] == FoldChar(name[i])
    ensures ' ' !in key
    ensures forall i :: 0 <= i < |key| ==> !IsUpper(key[i])
  {
    ReplaceChar(Lower(name), ' ', '_')
  }

  /** Normalising a key again leaves it unchanged. */
  lemma NormalizeIdempotent(name: string)
    ensures NormalizeName(NormalizeName(name)) == NormalizeName(name)
  {
  }

  /**
   * Two names give the same key exactly when they have the same length and
   * agree position by position up to ASCII case and `' '` versus `'_'`.
   */
  lemma SameKeyIff(a: string, b: string)
    ensures NormalizeName(a) == NormalizeName(b)
        <==> |a| == |b| && forall i :: 0 <= i < |a| ==> FoldChar(a[i]) == FoldChar(b[i])
  {
  }

  /** The worked example of the platform normalisation: "PlayStation 5" -> "playstation_5". */
  lemma NormalizeExample(name: string)
    requires name == "PlayStation 5"
    ensures NormalizeName(name) == "playstation_5"
  {
  }
}
