/** The JavaScript string operations the Markdown renderer uses. */
module JsText {

  /** `\s`, which is also what `trim` removes. */
  predicate IsSpace(c: char) {
    var n := c as int;
    || 9 <= n <= 13 || n == 32 || n == 0xA0 || n == 0x1680 || 0x2000 <= n <= 0x200A
    || n == 0x2028 || n == 0x2029 || n == 0x202F || n == 0x205F || n == 0x3000 || n == 0xFEFF
  }

  /** The same one by one: 25 characters. */
  const SPACE_CODES: set<int> := {
    0x9, 0xA, 0xB, 0xC, 0xD, 0x20, 0xA0, 0x1680, 0x2000, 0x2001, 0x2002, 0x2003, 0x2004, 0x2005, 0x2006, 0x2007, 0x2008,
    0x2009, 0x200A, 0x2028, 0x2029, 0x202F, 0x205F, 0x3000, 0xFEFF }

  lemma SpacesListed(c: char)
    ensures IsSpace(c) <==> c as int in SPACE_CODES
  {
  }

  /** What `.` does not match. */
  predicate IsTerminator(c: char) {
    c == '\n' || c == '\r' || c as int == 0x2028 || c as int == 0x2029
  }

  predicate NoTerminator(s: string) { forall i :: 0 <= i < |s| ==> !IsTerminator(s[i]) }

  /** The length of the leading run of white space. */
  function Spaces(s: string): (n: nat)
    ensures n <= |s| && (forall i :: 0 <= i < n ==> IsSpace(s[i])) && (n < |s| ==> !IsSpace(s[n]))
  {
    if s == "" || !IsSpace(s[0]) then 0 else 1 + Spaces(s[1..])
  }

  /** The length of the leading run of one character. */
  function RunOf(s: string, c: char): (n: nat)
    ensures n <= |s| && (forall i :: 0 <= i < n ==> s[i] == c) && (n < |s| ==> s[n] != c)
  {
    if s == "" || s[0] != c then 0 else 1 + RunOf(s[1..], c)
  }

  /** The length of the leading run of ASCII digits. */
  function Digits(s: string): (n: nat)
    ensures n <= |s| && (forall i :: 0 <= i < n ==> '0' <= s[i] <= '9') && (n < |s| ==> !('0' <= s[n] <= '9'))
  {
    if s == "" || !('0' <= s[0] <= '9') then 0 else 1 + Digits(s[1..])
  }

  function TrimEnd(s: string): string {
    if s != "" && IsSpace(s[|s| - 1]) then TrimEnd(s[..|s| - 1]) else s
  }

  function Trim(s: string): string { TrimEnd(s[Spaces(s)..]) }

  predicate AllSpace(s: string) { forall i :: 0 <= i < |s| ==> IsSpace(s[i]) }

  predicate Trimmed(s: string) { s == "" || (!IsSpace(s[0]) && !IsSpace(s[|s| - 1])) }

  lemma {:induction false} TrimEndPads(s: string, pad: string)
    requires AllSpace(pad) && (s == "" || !IsSpace(s[|s| - 1]))
    ensures TrimEnd(s + pad) == s
  {
    if pad == "" {
      assert s + pad == s;
    } else {
      var n := |pad| - 1;
      TrimEndPads(s, pad[..n]);
      assert (s + pad)[..|s| + n] == s + pad[..n];
    }
  }

  lemma {:induction false} SpacesOfPad(pad: string, s: string)
    requires AllSpace(pad) && (s == "" || !IsSpace(s[0]))
    ensures Spaces(pad + s) == |pad|
  {
    if pad == "" {
      assert pad + s == s;
    } else {
      SpacesOfPad(pad[1..], s);
      assert (pad + s)[1..] == pad[1..] + s;
    }
  }

  /** Trimming removes exactly the padding. */
  lemma TrimUnpads(before: string, s: string, after: string)
    requires AllSpace(before) && AllSpace(after) && Trimmed(s)
    ensures Trim(before + s + after) == s
  {
    var t := before + s + after;
    if s == "" {
      assert AllSpace(t);
      SpacesOfPad(t, "");
      assert t + "" == t;
    } else {
      SpacesOfPad(before, s + after);
      assert t == before + (s + after);
      assert t[Spaces(t)..] == s + after;
      TrimEndPads(s, after);
    }
  }

  lemma SpacesSplit(s: string)
    ensures s == s[..Spaces(s)] + s[Spaces(s)..] && AllSpace(s[..Spaces(s)])
    ensures s[Spaces(s)..] != "" ==> !IsSpace(s[Spaces(s)..][0])
    ensures s != "" && IsSpace(s[0]) ==> s[..Spaces(s)] != ""
  {
    hide IsSpace;
  }

  lemma {:induction false} TrimEndEnds(s: string)
    ensures TrimEnd(s) <= s && AllSpace(s[|TrimEnd(s)|..])
    ensures TrimEnd(s) == "" || !IsSpace(TrimEnd(s)[|TrimEnd(s)| - 1])
  {
    if s != "" && IsSpace(s[|s| - 1]) {
      TrimEndEnds(s[..|s| - 1]);
      var n := |TrimEnd(s)|;
      assert s[n..] == s[..|s| - 1][n..] + [s[|s| - 1]];
    }
  }

  /** What is left starts at the first character that is not white space. */
  lemma TrimStarts(s: string)
    requires Spaces(s) < |s|
    ensures Trim(s) != "" && Trim(s)[0] == s[Spaces(s)] && !IsSpace(Trim(s)[0])
  {
    TrimEndEnds(s[Spaces(s)..]);
  }
}
