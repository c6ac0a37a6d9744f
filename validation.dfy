/**
 * The path-parameter guards of the two POST routes (src/app.ts).
 *
 * JavaScript's `/^[C]+$/.test(s)` is modelled by a greedy scan for the
 * longest prefix of class characters; the test succeeds when that prefix is
 * non-empty and covers the whole string. The lemmas relate this matcher to
 * the plain "non-empty and every character is in the class" reading.
 */
module Validation {

  /**
   * JavaScript's `\s`: the ECMAScript WhiteSpace and LineTerminator code
   * points (tab, line feed, vertical tab, form feed, carriage return,
   * space, no-break space, ogham space mark, U+2000 to U+200A, line and
   * paragraph separators, narrow no-break space, medium mathematical space,
   * ideographic space and the byte order mark).
   */
  predicate IsJsWhitespace(c: char) {
    c == '\t' || c == '\n' || c == '\U{B}' || c == '\U{C}' || c == '\r' || c == ' '
    || c == '\U{A0}' || c == '\U{1680}' || ('\U{2000}' <= c <= '\U{200A}')
    || c == '\U{2028}' || c == '\U{2029}' || c == '\U{202F}' || c == '\U{205F}'
    || c == '\U{3000}' || c == '\U{FEFF}'
  }

  /** The class `[A-Za-z0-9._\s-]` of the sequence-name pattern */
  predicate IsNameChar(c: char) {
    ('A' <= c <= 'Z') || ('a' <= c <= 'z') || ('0' <= c <= '9')
    || c == '.' || c == '_' || c == '-' || IsJsWhitespace(c)
  }

  /** The class `[0-9]` of the slot pattern */
  predicate IsDigit(c: char) {
    '0' <= c <= '9'
  }

  /** Length of the longest prefix of `s` made of characters of `cls` (what a greedy `[C]+` consumes) */
  function ClassRun(s: string, cls: char -> bool): (n: nat)
    ensures n <= |s|
  {
    if |s| == 0 || !cls(s[0]) then 0 else 1 + ClassRun(s[1..], cls)
  }

  /** `/^[C]+$/.test(s)`: the greedy run is non-empty and reaches the end of the input */
  predicate AnchoredPlusTest(s: string, cls: char -> bool) {
    var n := ClassRun(s, cls);
    n >= 1 && n == |s|
  }

  /** The sequence-name guard: `!name || !/^[A-Za-z0-9._\s-]+$/.test(name)` rejects */
  predicate ValidSequenceName(name: string) {
    name != "" && AnchoredPlusTest(name, IsNameChar)
  }

  /** The slot guard: `!slot || !/^[0-9]+$/.test(slot)` rejects */
  predicate ValidSlot(slot: string) {
    slot != "" && AnchoredPlusTest(slot, IsDigit)
  }

  /** The greedy run stops exactly at the first character outside the class */
  lemma {:induction false} ClassRunCharacterises(s: string, cls: char -> bool)
    ensures forall i :: 0 <= i < ClassRun(s, cls) ==> cls(s[i])
    ensures ClassRun(s, cls) < |s| ==> !cls(s[ClassRun(s, cls)])
  {
    if |s| > 0 && cls(s[0]) {
      ClassRunCharacterises(s[1..], cls);
      forall i | 0 <= i < ClassRun(s, cls) ensures cls(s[i]) {
        if i > 0 { assert s[i] == s[1..][i - 1]; }
      }
    }
  }

  /** The anchored pattern accepts exactly the non-empty strings over the class */
  lemma AnchoredPlusTestIff(s: string, cls: char -> bool)
    ensures AnchoredPlusTest(s, cls) <==> |s| > 0 && forall i :: 0 <= i < |s| ==> cls(s[i])
  {
    ClassRunCharacterises(s, cls);
  }

  /** A name is accepted iff it is non-empty and every character is a letter, digit, `.`, `_`, `-` or whitespace */
  lemma ValidSequenceNameIff(name: string)
    ensures ValidSequenceName(name) <==> |name| > 0 && forall i :: 0 <= i < |name| ==> IsNameChar(name[i])
  {
    AnchoredPlusTestIff(name, IsNameChar);
  }

  /** A slot is accepted iff it is non-empty and every character is an ASCII decimal digit */
  lemma ValidSlotIff(slot: string)
    ensures ValidSlot(slot) <==> |slot| > 0 && forall i :: 0 <= i < |slot| ==> IsDigit(slot[i])
  {
    AnchoredPlusTestIff(slot, IsDigit);
  }

  /** The `!name` / `!slot` half of each guard never decides anything: the pattern already refuses "" */
  lemma EmptyCheckRedundant(s: string)
    ensures ValidSequenceName(s) == AnchoredPlusTest(s, IsNameChar)
    ensures ValidSlot(s) == AnchoredPlusTest(s, IsDigit)
  {
  }
}
