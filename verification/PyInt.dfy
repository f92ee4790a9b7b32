/** Python's `int` on text and `str` on integers. */
module PyInt {
  import opened Prelude
  import PyText

  /** The decimal value of a character, or -1: the Unicode table beyond ASCII is left open. */
  type DigitTable = char -> int

  ghost predicate IsTable(d: DigitTable) {
    forall c: char :: -1 <= d(c) <= 9 && (c as int < 128 ==> d(c) == if '0' <= c <= '9' then c as int - '0' as int else -1)
  }

  /** Text longer than this is refused by `int` and by `str`. */
  const MAX_DIGITS: nat := 4300

  /** White space that `int` skips: the four ASCII separators are not among it. */
  predicate IntSpace(c: char) { PyText.IsSpace(c) && !(28 <= c as int <= 31) }

  function Unpad(s: string): string {
    if s == "" then ""
    else if IntSpace(s[0]) then Unpad(s[1..])
    else if IntSpace(s[|s| - 1]) then Unpad(s[..|s| - 1])
    else s
  }

  function Unsigned(s: string): string { if s != "" && s[0] in "+-" then s[1..] else s }

  /** Digits with single underscores between them. */
  predicate DigitGroups(d: DigitTable, s: string) {
    && s != "" && s[0] != '_' && s[|s| - 1] != '_'
    && (forall i :: 0 <= i < |s| ==> s[i] == '_' || d(s[i]) >= 0)
    && (forall i :: 0 < i < |s| ==> s[i - 1] != '_' || s[i] != '_')
  }

  function DigitCount(s: string): nat {
    if s == "" then 0 else DigitCount(s[..|s| - 1]) + if s[|s| - 1] == '_' then 0 else 1
  }

  function Value(d: DigitTable, s: string): int {
    if s == "" then 0
    else
      var v := Value(d, s[..|s| - 1]);
      if s[|s| - 1] == '_' then v else 10 * v + d(s[|s| - 1])
  }

  /** `int(s)`; None stands for ValueError. */
  function Parse(d: DigitTable, s: string): Option<int> {
    var t := Unpad(s);
    var u := Unsigned(t);
    if !DigitGroups(d, u) || DigitCount(u) > MAX_DIGITS then None
    else Some(if t[0] == '-' then -Value(d, u) else Value(d, u))
  }

  function DigitChar(n: nat): char
    requires n < 10
  {
    (n + '0' as int) as char
  }

  /** `str(n)` */
  function Show(n: int): string {
    if n < 0 then "-" + ShowNat(-n) else ShowNat(n)
  }

  function ShowNat(n: nat): string {
    if n < 10 then [DigitChar(n)] else ShowNat(n / 10) + [DigitChar(n % 10)]
  }

  /** `str(n)` raises ValueError for any other. */
  predicate Printable(n: int) { |Unsigned(Show(n))| <= MAX_DIGITS }

  predicate AsciiDigits(s: string) { forall i :: 0 <= i < |s| ==> '0' <= s[i] <= '9' }

  predicate CanonicalNat(s: string) { s != "" && AsciiDigits(s) && (s[0] == '0' ==> |s| == 1) }

  /** A decimal with no sign but a minus, no leading zero and no minus zero. */
  predicate Canonical(s: string) {
    CanonicalNat(s) || (s != "" && s[0] == '-' && CanonicalNat(s[1..]) && s[1] != '0')
  }

  lemma {:induction false} ShowNatCanonical(n: nat)
    ensures CanonicalNat(ShowNat(n)) && (ShowNat(n)[0] == '0' <==> n == 0)
  {
    if n >= 10 {
      ShowNatCanonical(n / 10);
    }
  }

  lemma {:induction false} ValueOfShow(d: DigitTable, n: nat)
    requires IsTable(d)
    ensures Value(d, ShowNat(n)) == n
  {
    if n >= 10 {
      ValueOfShow(d, n / 10);
      var s := ShowNat(n);
      assert s[..|s| - 1] == ShowNat(n / 10);
    } else {
      assert ShowNat(n)[..0] == "";
    }
  }

  lemma {:induction false} ShowOfValue(d: DigitTable, s: string)
    requires IsTable(d) && CanonicalNat(s)
    ensures Value(d, s) >= 0 && ShowNat(Value(d, s)) == s
    ensures s[0] != '0' ==> Value(d, s) > 0
  {
    var n := |s| - 1;
    var front, last := s[..n], s[n];
    assert s == front + [last] && d(last) == last as int - '0' as int;
    if n > 0 {
      ShowOfValue(d, front);
      assert Value(d, s) / 10 == Value(d, front) && Value(d, s) % 10 == d(last);
    } else {
      assert Value(d, front) == 0;
    }
  }

  lemma {:induction false} CountDigits(s: string)
    requires AsciiDigits(s)
    ensures DigitCount(s) == |s|
  {
    if s != "" {
      CountDigits(s[..|s| - 1]);
    }
  }

  /** What `int` makes of a canonical decimal. */
  lemma ParseCanonical(d: DigitTable, s: string)
    requires IsTable(d) && Canonical(s)
    ensures var u := Unsigned(s);
            s != "" && Parse(d, s) == if |u| > MAX_DIGITS then None else Some(if s[0] == '-' then -Value(d, u) else Value(d, u))
  {
    var u := Unsigned(s);
    assert CanonicalNat(u) && Unpad(s) == s;
    CountDigits(u);
    assert forall i :: 0 <= i < |u| ==> d(u[i]) >= 0;
  }

  lemma ShowCanonical(n: int)
    ensures Canonical(Show(n))
  {
    if n < 0 {
      ShowNatCanonical(-n);
      assert Show(n)[1..] == ShowNat(-n);
    } else {
      ShowNatCanonical(n);
    }
  }

  /** `str(int(s)) == s` holds exactly for the canonical decimals within the digit limit. */
  lemma RoundTripIff(d: DigitTable, s: string)
    requires IsTable(d)
    ensures Parse(d, s).Some? && Show(Parse(d, s).value) == s <==> Canonical(s) && |Unsigned(s)| <= MAX_DIGITS
  {
    hide Parse, Show, Unsigned, Canonical, ShowNat;
    if Canonical(s) {
      ParseCanonical(d, s);
      CanonicalShows(d, s);
    } else if Parse(d, s).Some? {
      ShowCanonical(Parse(d, s).value);
    }
  }

  lemma CanonicalShows(d: DigitTable, s: string)
    requires IsTable(d) && Canonical(s)
    ensures s != "" && Show(if s[0] == '-' then -Value(d, Unsigned(s)) else Value(d, Unsigned(s))) == s
  {
    hide ShowNat;
    ShowOfValue(d, Unsigned(s));
  }

  lemma ShownParts(n: int)
    ensures Unsigned(Show(n)) == ShowNat(if n < 0 then -n else n) && (Show(n)[0] == '-' <==> n < 0)
  {
    ShowNatCanonical(if n < 0 then -n else n);
    if n < 0 {
      assert Show(n)[1..] == ShowNat(-n);
    } else {
      assert '0' <= ShowNat(n)[0] <= '9';
    }
  }

  /** `int(str(n)) == n` within the limit. */
  lemma ParseOfShow(d: DigitTable, n: int)
    requires IsTable(d) && Printable(n)
    ensures Parse(d, Show(n)) == Some(n)
  {
    hide Parse, Show, Unsigned, Canonical, ShowNat;
    ShowCanonical(n);
    ParseCanonical(d, Show(n));
    ShownParts(n);
    ValueOfShow(d, if n < 0 then -n else n);
  }

  lemma {:induction false} ValueWidth(d: DigitTable, s: string)
    requires IsTable(d) && s != "" && s[0] != '_' && forall i :: 0 <= i < |s| ==> s[i] == '_' || d(s[i]) >= 0
    ensures Value(d, s) >= 0 && 1 <= |ShowNat(Value(d, s))| <= DigitCount(s)
  {
    var n := |s| - 1;
    if n == 0 {
      assert s[..0] == "" && 0 <= Value(d, s) < 10;
    } else {
      ValueWidth(d, s[..n]);
      var v := Value(d, s[..n]);
      if s[n] != '_' && v > 0 {
        assert (10 * v + d(s[n])) / 10 == v;
      }
    }
  }

  /** Whatever `int` accepts, `str` prints. */
  lemma ParsedPrintable(d: DigitTable, s: string)
    requires IsTable(d) && Parse(d, s).Some?
    ensures Printable(Parse(d, s).value)
  {
    hide Unpad;
    ValueWidth(d, Unsigned(Unpad(s)));
    ShownParts(Parse(d, s).value);
  }

  // ----- the texts `int` accepts beside canonical decimals --------------------------

  /** ASCII digits, at least one. */
  predicate Decimal(s: string) { s != "" && AsciiDigits(s) }

  lemma {:induction false} CountConcat(a: string, b: string)
    ensures DigitCount(a + b) == DigitCount(a) + DigitCount(b)
  {
    if b == "" {
      assert a + b == a;
    } else {
      CountConcat(a, b[..|b| - 1]);
      assert (a + b)[..|a + b| - 1] == a + b[..|b| - 1];
    }
  }

  lemma {:induction false} ValueSkips(d: DigitTable, a: string, b: string)
    ensures Value(d, a + "_" + b) == Value(d, a + b)
  {
    if b == "" {
      assert a + "_" + b == a + "_" && (a + "_")[..|a|] == a && a + b == a;
    } else {
      var n := |b| - 1;
      ValueSkips(d, a, b[..n]);
      assert (a + "_" + b)[..|a| + 1 + n] == a + "_" + b[..n] && (a + b)[..|a| + n] == a + b[..n];
    }
  }

  lemma NoPadding(s: string)
    requires s != "" && !IntSpace(s[0]) && !IntSpace(s[|s| - 1])
    ensures Unpad(s) == s
  {
  }

  lemma Solid(c: char)
    ensures '0' <= c <= '9' || c in "+-_" ==> !IntSpace(c)
    ensures IntSpace(c) && c as int < 128 <==> 9 <= c as int <= 13 || c == ' '
  {
  }

  lemma DecimalFacts(d: DigitTable, u: string)
    requires IsTable(d) && Decimal(u)
    ensures u != "" && DigitGroups(d, u) && DigitCount(u) == |u| && u[0] !in "+-" && !IntSpace(u[0]) && !IntSpace(u[|u| - 1])
  {
    CountDigits(u);
    Solid(u[0]);
    Solid(u[|u| - 1]);
    hide IntSpace, DigitCount;
  }

  /** What `int` makes of text without padding. */
  lemma ParseBare(d: DigitTable, t: string)
    requires t != "" && !IntSpace(t[0]) && !IntSpace(t[|t| - 1])
    ensures Parse(d, t) == if !DigitGroups(d, Unsigned(t)) || DigitCount(Unsigned(t)) > MAX_DIGITS then None
                           else Some(if t[0] == '-' then -Value(d, Unsigned(t)) else Value(d, Unsigned(t)))
  {
    hide IntSpace, DigitGroups, DigitCount, Value, Unsigned;
    NoPadding(t);
  }

  /** A decimal of at most 4300 digits, with either sign or none. */
  lemma SignedParses(d: DigitTable, u: string)
    requires IsTable(d) && Decimal(u)
    ensures Parse(d, u) == if |u| <= 4300 then Some(Value(d, u)) else None
    ensures Parse(d, "+" + u) == Parse(d, u)
    ensures Parse(d, "-" + u) == if |u| <= 4300 then Some(-Value(d, u)) else None
  {
    hide Parse, IntSpace, DigitGroups, DigitCount, Value, Decimal, IsTable;
    DecimalFacts(d, u);
    Solid('+');
    Solid('-');
    assert ("+" + u)[1..] == u && ("-" + u)[1..] == u;
    ParseBare(d, u);
    ParseBare(d, "+" + u);
    ParseBare(d, "-" + u);
  }

  /** Underscores that `int` refuses: at an end, or two together. */
  lemma BadGroups(d: DigitTable, a: string, b: string)
    requires Decimal(a) && Decimal(b)
    ensures !DigitGroups(d, a + "__" + b) && !DigitGroups(d, "_" + a) && !DigitGroups(d, a + "_")
    ensures Unsigned(a + "__" + b) == a + "__" + b && Unsigned("_" + a) == "_" + a && Unsigned(a + "_") == a + "_"
  {
    assert (a + "__" + b)[|a|] == '_' && (a + "__" + b)[|a| + 1] == '_' && (a + "_")[|a|] == '_';
  }

  lemma GroupsJoin(d: DigitTable, a: string, b: string)
    requires IsTable(d) && Decimal(a) && Decimal(b)
    ensures DigitGroups(d, a + "_" + b) && Unsigned(a + "_" + b) == a + "_" + b
  {
    var t := a + "_" + b;
    assert |t| == |a| + 1 + |b| && t[0] == a[0] && t[|t| - 1] == b[|b| - 1] && t[|a|] == '_';
    forall i | 0 <= i < |t| ensures i != |a| ==> t[i] != '_' && d(t[i]) >= 0 {
      assert i < |a| ==> t[i] == a[i];
      assert i > |a| ==> t[i] == b[i - |a| - 1];
    }
  }

  lemma GroupsCount(a: string, b: string)
    requires Decimal(a) && Decimal(b)
    ensures DigitCount(a + "_" + b) == |a| + |b|
  {
    hide DigitCount;
    CountDigits(a);
    CountDigits(b);
    CountConcat(a + "_", b);
    CountConcat(a, "_");
    OneUnderscore();
  }

  lemma DecimalsJoin(a: string, b: string)
    requires Decimal(a) && Decimal(b)
    ensures Decimal(a + b) && |a + b| == |a| + |b|
  {
  }

  lemma GoodGroups(d: DigitTable, a: string, b: string)
    requires IsTable(d) && Decimal(a) && Decimal(b)
    ensures var t := a + "_" + b;
            DigitGroups(d, t) && DigitCount(t) == |a| + |b| && Unsigned(t) == t && Value(d, t) == Value(d, a + b)
    ensures Decimal(a + b) && |a + b| == |a| + |b|
  {
    hide IsTable, Decimal, DigitGroups, DigitCount, Unsigned, Value;
    GroupsJoin(d, a, b);
    GroupsCount(a, b);
    DecimalsJoin(a, b);
    ValueSkips(d, a, b);
  }

  lemma OneUnderscore()
    ensures DigitCount("_") == 0
  {
    assert "_"[..0] == "";
  }

  /** One underscore between digits is skipped; anywhere else, or two together, it is refused. */
  lemma GroupedParses(d: DigitTable, a: string, b: string)
    requires IsTable(d) && Decimal(a) && Decimal(b)
    ensures Parse(d, a + "_" + b) == Parse(d, a + b)
    ensures Parse(d, a + "__" + b) == None && Parse(d, "_" + a) == None && Parse(d, a + "_") == None
  {
    hide Parse, IntSpace, DigitGroups, DigitCount, Value, IsTable, Unsigned, Decimal;
    GoodGroups(d, a, b);
    BadGroups(d, a, b);
    SignedParses(d, a + b);
    DecimalFacts(d, a);
    DecimalFacts(d, b);
    Solid('_');
    Ends(a, b);
    ParseBare(d, a + "_" + b);
    ParseBare(d, a + "__" + b);
    ParseBare(d, "_" + a);
    ParseBare(d, a + "_");
  }

  lemma Ends(a: string, b: string)
    requires a != "" && b != ""
    ensures (a + "_" + b)[0] == a[0] && (a + "_" + b)[|a| + |b|] == b[|b| - 1] && |a + "_" + b| == |a| + |b| + 1
    ensures (a + "__" + b)[0] == a[0] && (a + "__" + b)[|a| + |b| + 1] == b[|b| - 1] && |a + "__" + b| == |a| + |b| + 2
    ensures ("_" + a)[0] == '_' && ("_" + a)[|a|] == a[|a| - 1] && (a + "_")[0] == a[0] && (a + "_")[|a|] == '_'
  {
  }

  predicate Padding(s: string) { forall i :: 0 <= i < |s| ==> 9 <= s[i] as int <= 13 || s[i] == ' ' }

  lemma {:induction false} UnpadFront(pad: string, s: string)
    requires Padding(pad)
    ensures Unpad(pad + s) == Unpad(s)
  {
    if pad == "" {
      assert pad + s == s;
    } else {
      Solid(pad[0]);
      UnpadFront(pad[1..], s);
      assert (pad + s)[1..] == pad[1..] + s;
    }
  }

  lemma {:induction false} UnpadBack(s: string, pad: string)
    requires Padding(pad)
    ensures Unpad(s + pad) == Unpad(s)
    decreases |s| + |pad|
  {
    if pad == "" {
      assert s + pad == s;
    } else if s == "" {
      UnpadFront(pad, "");
      assert s + pad == pad == pad + "";
    } else if IntSpace(s[0]) {
      UnpadBack(s[1..], pad);
      assert (s + pad)[1..] == s[1..] + pad;
    } else {
      var n := |pad| - 1;
      Solid(pad[n]);
      UnpadBack(s, pad[..n]);
      assert (s + pad)[..|s| + n] == s + pad[..n];
    }
  }

  /** White space around the text is skipped. */
  lemma PaddedParses(d: DigitTable, before: string, s: string, after: string)
    requires Padding(before) && Padding(after)
    ensures Parse(d, before + s + after) == Parse(d, s)
  {
    hide Padding;
    UnpadBack(before + s, after);
    UnpadFront(before, s);
  }
}
