/** The Python string operations the components share. */
module PyText {
  import opened Prelude

  /** `str.isspace` of one character. */
  predicate IsSpace(c: char) {
    var n := c as int;
    || 9 <= n <= 13 || 28 <= n <= 32 || n == 0x85 || n == 0xA0 || n == 0x1680
    || 0x2000 <= n <= 0x200A || n == 0x2028 || n == 0x2029 || n == 0x202F || n == 0x205F || n == 0x3000
  }

  /** The same one by one: 29 characters. */
  const SPACE_CODES: set<int> := {
    0x9, 0xA, 0xB, 0xC, 0xD, 0x1C, 0x1D, 0x1E, 0x1F, 0x20, 0x85, 0xA0, 0x1680, 0x2000, 0x2001, 0x2002, 0x2003, 0x2004,
    0x2005, 0x2006, 0x2007, 0x2008, 0x2009, 0x200A, 0x2028, 0x2029, 0x202F, 0x205F, 0x3000 }

  lemma SpacesListed(c: char)
    ensures IsSpace(c) <==> c as int in SPACE_CODES
  {
  }

  function LStrip(s: string): string { if s != [] && IsSpace(s[0]) then LStrip(s[1..]) else s }

  function RStrip(s: string): string { if s != [] && IsSpace(s[|s| - 1]) then RStrip(s[..|s| - 1]) else s }

  /** `str.strip()` */
  function Strip(s: string): string { RStrip(LStrip(s)) }

  /** Nothing to strip. */
  predicate Trim(s: string) { s == [] || (!IsSpace(s[0]) && !IsSpace(s[|s| - 1])) }

  lemma {:induction false} LStripHead(s: string)
    ensures LStrip(s) == [] || !IsSpace(LStrip(s)[0])
    ensures s == [] || !IsSpace(s[0]) ==> LStrip(s) == s
  {
    if s != [] && IsSpace(s[0]) {
      LStripHead(s[1..]);
    }
  }

  lemma {:induction false} RStripEnds(s: string)
    ensures RStrip(s) <= s
    ensures RStrip(s) == [] || !IsSpace(RStrip(s)[|RStrip(s)| - 1])
    ensures s == [] || !IsSpace(s[|s| - 1]) ==> RStrip(s) == s
  {
    if s != [] && IsSpace(s[|s| - 1]) {
      RStripEnds(s[..|s| - 1]);
    }
  }

  lemma StripTrims(s: string)
    ensures Trim(Strip(s))
  {
    LStripHead(s);
    RStripEnds(LStrip(s));
  }

  lemma TrimStrips(s: string)
    requires Trim(s)
    ensures Strip(s) == s
  {
    LStripHead(s);
    RStripEnds(s);
  }

  lemma StripIdempotent(s: string)
    ensures Strip(Strip(s)) == Strip(s)
  {
    StripTrims(s);
    TrimStrips(Strip(s));
  }

  /** `str.lower` on ASCII letters. */
  function Lower(s: string): string { seq(|s|, i requires 0 <= i < |s| => LowerChar(s[i])) }

  lemma LowerKeepsTrim(s: string)
    requires Trim(s)
    ensures Trim(Lower(s)) && Lower(Lower(s)) == Lower(s)
  {
  }
}
