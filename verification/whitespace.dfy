/**
 Python's `str.rstrip()` with no argument: the text with every trailing
 whitespace character removed. The editor applies it to the widget text
 before every write to disk.
 */
module Whitespace {

  /** Python's `str.isspace` for a single character. */
  predicate IsSpace(c: char) {
    || c == ' '
    || ('\t' <= c <= '\r')                  // tab, line feed, vertical tab, form feed, carriage return
    || ('\U{1C}' <= c <= '\U{1F}')           // file, group, record and unit separators
    || c == '\U{85}' || c == '\U{A0}' || c == '\U{1680}'
    || ('\U{2000}' <= c <= '\U{200A}')
    || c == '\U{2028}' || c == '\U{2029}' || c == '\U{202F}' || c == '\U{205F}' || c == '\U{3000}'
  }

  /** Every character of `s` is whitespace (vacuously true of ""). */
  predicate AllSpace(s: string) {
    forall i | 0 <= i < |s| :: IsSpace(s[i])
  }

  /** `s` has a last character and it is whitespace. */
  predicate EndsInSpace(s: string) {
    |s| > 0 && IsSpace(s[|s| - 1])
  }

  /** `str.rstrip()`: a prefix of `s` that does not end in whitespace and
      after which `s` holds only whitespace. */
  function RStrip(s: string): (r: string)
    ensures r <= s
    ensures !EndsInSpace(r)
    ensures AllSpace(s[|r|..])
    decreases |s|
  {
    if EndsInSpace(s) then
      var r := RStrip(s[..|s| - 1]);
      assert s[|r|..] == s[..|s| - 1][|r|..] + [s[|s| - 1]];
      r
    else
      s
  }

  /** The three properties in RStrip's contract pin the result down: any
      prefix with them is the stripped text. */
  lemma RStripUnique(s: string, p: string)
    requires p <= s
    requires !EndsInSpace(p)
    requires AllSpace(s[|p|..])
    ensures RStrip(s) == p
  {
    var r := RStrip(s);
    assert |r| == |p|;
  }

  /** Stripping twice is stripping once. */
  lemma RStripIdempotent(s: string)
    ensures RStrip(RStrip(s)) == RStrip(s)
  {
    var r := RStrip(s);
    assert r[|r|..] == [];
    RStripUnique(r, r);
  }

  /** Appending whitespace does not change what is stripped down to. */
  lemma RStripAppendSpace(s: string, w: string)
    requires AllSpace(w)
    ensures RStrip(s + w) == RStrip(s)
  {
    var r := RStrip(s);
    assert (s + w)[|r|..] == s[|r|..] + w;
    assert r <= s + w;
    RStripUnique(s + w, r);
  }

  /** The stripped text is empty exactly when the whole text is whitespace. */
  lemma RStripEmptyIff(s: string)
    ensures RStrip(s) == "" <==> AllSpace(s)
  {
    if AllSpace(s) {
      assert s[|""|..] == s;
      RStripUnique(s, "");
    }
  }
}
