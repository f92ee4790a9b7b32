/** The block parser of the guide renderer: nested loops that share one line index, proved
    against a grammar of placed blocks and against a line-at-a-time scanner. */
module GuideBlocks {
  import opened Prelude
  import opened JsText
  import opened Splitting

  // ----- lines ---------------------------------------------------------------

  /** `md.replace(/\r\n/g, "\n")` */
  function CrlfToLf(s: string): string {
    if s == "" then ""
    else if |s| >= 2 && s[0] == '\r' && s[1] == '\n' then "\n" + CrlfToLf(s[2..])
    else [s[0]] + CrlfToLf(s[1..])
  }

  function Lines(md: string): seq<string> { Split(CrlfToLf(md), '\n') }

  // ----- the tests on one line -----------------------------------------------

  predicate Blank(line: string) { Trim(line) == "" }

  predicate FenceLine(line: string) { "```" <= Trim(line) }

  predicate AllOf(s: string, c: char) { forall i :: 0 <= i < |s| ==> s[i] == c }

  predicate RuleLine(line: string) {
    var t := Trim(line);
    |t| >= 3 && (AllOf(t, '-') || AllOf(t, '*') || AllOf(t, '_'))
  }

  /** `/^(#{1,6})\s+/` */
  predicate HeadingPrefix(line: string) {
    var h := RunOf(line, '#');
    1 <= h <= 6 && h < |line| && IsSpace(line[h])
  }

  function HeadingText(line: string): string
    requires HeadingPrefix(line)
  {
    var h := RunOf(line, '#');
    line[h + Spaces(line[h..])..]
  }

  /** `/^(#{1,6})\s+(.*)$/`: the rest must also reach the end of the line without a terminator. */
  predicate HeadingLine(line: string) { HeadingPrefix(line) && NoTerminator(HeadingText(line)) }

  predicate QuoteLine(line: string) { line != "" && line[0] == '>' }

  /** `line.replace(/^>\s?/, "")`; a line that does not match is left as it is. */
  function QuoteText(line: string): string {
    if !QuoteLine(line) then line else if |line| >= 2 && IsSpace(line[1]) then line[2..] else line[1..]
  }

  predicate HasPipe(line: string) { '|' in line }

  /** `splitTableRow` */
  function Cells(row: string): (cells: seq<string>)
    ensures cells != []
  {
    var r := Trim(row);
    var r1 := if r != "" && r[0] == '|' then r[1..] else r;
    var r2 := if r1 != "" && r1[|r1| - 1] == '|' then r1[..|r1| - 1] else r1;
    var parts := Split(r2, '|');
    seq(|parts|, i requires 0 <= i < |parts| => Trim(parts[i]))
  }

  /** `/^\s*:?-+:?\s*$/` on a trimmed cell. */
  predicate DashCell(c: string) {
    var a := if c != "" && c[0] == ':' then c[1..] else c;
    var b := if a != "" && a[|a| - 1] == ':' then a[..|a| - 1] else a;
    b != "" && AllOf(b, '-')
  }

  predicate SeparatorLine(line: string) {
    '-' in line && HasPipe(line) && forall i :: 0 <= i < |Cells(line)| ==> DashCell(Cells(line)[i])
  }

  /** `/^\s*[-*+]\s+/` */
  predicate BulletLine(line: string) {
    var k := Spaces(line);
    k + 1 < |line| && line[k] in "-*+" && IsSpace(line[k + 1])
  }

  function BulletText(line: string): string {
    if !BulletLine(line) then line
    else
      var k := Spaces(line) + 1;
      line[k + Spaces(line[k..])..]
  }

  /** `/^\s*\d+\.\s+/` */
  predicate NumberLine(line: string) {
    var k := Spaces(line);
    var d := k + Digits(line[k..]);
    k < d && d + 1 < |line| && line[d] == '.' && IsSpace(line[d + 1])
  }

  function NumberText(line: string): string {
    if !NumberLine(line) then line
    else
      var k := Spaces(line);
      var d := k + Digits(line[k..]) + 1;
      line[d + Spaces(line[d..])..]
  }

  /** `isBlockStart` */
  predicate IsBlockStart(line: string) {
    || Blank(line) || FenceLine(line) || HeadingPrefix(line) || RuleLine(line)
    || QuoteLine(line) || BulletLine(line) || NumberLine(line)
  }

  // ----- blocks --------------------------------------------------------------

  datatype Kind = Skip | Code | Rule | Head | Quoted | Grid | Bullets | Numbers | Prose

  datatype Block =
    | CodeBlock(code: seq<string>)
    | RuleBlock
    | Heading(level: nat, text: string)
    | Quote(quoted: seq<string>)
    | Table(header: seq<string>, rows: seq<seq<string>>)
    | BulletList(bullets: seq<string>)
    | NumberList(numbered: seq<string>)
    | Paragraph(prose: seq<string>)

  /** A block and the lines `from..to` it was made of. */
  datatype Placed = Placed(block: Block, from: nat, to: nat)

  function Next(lines: seq<string>, i: nat): Option<string> { if i + 1 < |lines| then Some(lines[i + 1]) else None }

  predicate TableStart(line: string, next: Option<string>) { HasPipe(line) && next.Some? && SeparatorLine(next.value) }

  /** The branch the outer loop takes at a line. */
  function KindOf(line: string, next: Option<string>): Kind {
    if Blank(line) then Skip
    else if FenceLine(line) then Code
    else if RuleLine(line) then Rule
    else if HeadingLine(line) then Head
    else if QuoteLine(line) then Quoted
    else if TableStart(line, next) then Grid
    else if BulletLine(line) then Bullets
    else if NumberLine(line) then Numbers
    else Prose
  }

  /** The test of the inner loop of each branch. */
  predicate Continues(k: Kind, line: string) {
    match k
    case Code => !FenceLine(line)
    case Quoted => QuoteLine(line)
    case Grid => HasPipe(line) && !Blank(line)
    case Bullets => BulletLine(line)
    case Numbers => NumberLine(line)
    case Prose => !IsBlockStart(line)
    case _ => false
  }

  /** A line the outer loop sends to the paragraph branch and the paragraph loop refuses. */
  predicate Stuck(line: string, next: Option<string>) {
    HeadingPrefix(line) && !NoTerminator(HeadingText(line)) && !TableStart(line, next)
  }

  /** A heading prefix rules out every other start. */
  lemma HeadingPrefixAlone(line: string)
    requires HeadingPrefix(line)
    ensures !Blank(line) && !FenceLine(line) && !RuleLine(line) && !QuoteLine(line) && !BulletLine(line) && !NumberLine(line)
  {
    assert line[0] == '#';
    assert Spaces(line) == 0;
    TrimStarts(line);
    assert Trim(line)[0] == '#';
    assert line[Spaces(line)..] == line && Digits(line) == 0;
  }

  /** Every line `isBlockStart` accepts is taken by a branch before the paragraph loop, except
      exactly the stuck ones. */
  lemma BlockStartTakenIff(line: string, next: Option<string>)
    ensures IsBlockStart(line) && KindOf(line, next) == Prose <==> Stuck(line, next)
  {
    if HeadingPrefix(line) {
      HeadingPrefixAlone(line);
    }
  }

  /** A paragraph goes on over exactly the lines that no branch would take if no separator line followed,
      and that do not begin as a heading. */
  lemma ParagraphGoesOnIff(line: string)
    ensures Continues(Prose, line) <==> KindOf(line, None) == Prose && !HeadingPrefix(line)
  {
    hide Blank, FenceLine, RuleLine, HeadingPrefix, QuoteLine, SeparatorLine, BulletLine, NumberLine;
  }

  /** The other blocks go on over lines of their own kind, a table over any line with a pipe, code over
      all but a fence. */
  lemma OthersGoOnIff(line: string)
    ensures KindOf(line, None) in {Quoted, Bullets, Numbers} ==> Continues(KindOf(line, None), line)
    ensures Continues(Quoted, line) <==> ">" <= line
    ensures Continues(Grid, line) <==> '|' in line
    ensures Continues(Code, line) <==> KindOf(line, None) != Code
    ensures Continues(Bullets, line) ==> KindOf(line, None) in {Bullets, Rule}
    ensures Continues(Numbers, line) ==> KindOf(line, None) == Numbers
    ensures KindOf(line, None) == Bullets <==> Continues(Bullets, line) && KindOf(line, None) != Rule
  {
    PipeIsNotBlank(line);
    ListLines(line);
    hide Blank, FenceLine, RuleLine, HeadingPrefix, SeparatorLine, BulletLine, NumberLine;
  }

  lemma PipeIsNotBlank(line: string)
    ensures '|' in line ==> !Blank(line)
  {
    if Blank(line) {
      TrimEmptyIff(line);
    }
  }

  /** A bulleted or numbered line is not blank, and no fence, heading or quote. */
  lemma ListLines(line: string)
    ensures BulletLine(line) || NumberLine(line) ==> !Blank(line) && !FenceLine(line) && !HeadingPrefix(line) && !QuoteLine(line)
    ensures NumberLine(line) ==> !RuleLine(line) && !BulletLine(line)
    ensures Blank(line) ==> !FenceLine(line)
  {
    var k := Spaces(line);
    if BulletLine(line) || NumberLine(line) {
      HashIsNoSpace();
      TrimStarts(line);
      if NumberLine(line) {
        assert line[k..][0] == line[k];
      }
    }
  }

  // ----- the grammar: what a list of placed blocks must be --------------------

  /** The text an item of that kind of block shows. */
  function TextOf(k: Kind, line: string): string {
    match k
    case Quoted => QuoteText(line)
    case Bullets => BulletText(line)
    case Numbers => NumberText(line)
    case _ => line
  }

  function Texts(k: Kind, ls: seq<string>): seq<string> { seq(|ls|, n requires 0 <= n < |ls| => TextOf(k, ls[n])) }

  function Grids(ls: seq<string>): seq<seq<string>> { seq(|ls|, n requires 0 <= n < |ls| => Cells(ls[n])) }

  /** Lines `i..j` continue a block of that kind, and the line after does not. */
  predicate MaximalRun(lines: seq<string>, k: Kind, i: nat, j: nat) {
    && i <= j <= |lines|
    && (forall n :: i <= n < j ==> Continues(k, lines[n]))
    && (j < |lines| ==> !Continues(k, lines[j]))
  }

  predicate BlockAt(lines: seq<string>, p: Placed) {
    var i, j := p.from, p.to;
    && i < j <= |lines|
    && var k := KindOf(lines[i], Next(lines, i));
       match p.block
       case CodeBlock(code) =>
         && k == Code && MaximalRun(lines, Code, i + 1, i + 1 + |code|)
         && code == lines[i + 1..i + 1 + |code|]
         && j == if i + 1 + |code| < |lines| then i + 2 + |code| else |lines|
       case RuleBlock => k == Rule && j == i + 1
       case Heading(level, text) => k == Head && j == i + 1 && level == RunOf(lines[i], '#') && text == HeadingText(lines[i])
       case Quote(quoted) => k == Quoted && MaximalRun(lines, Quoted, i, j) && quoted == Texts(Quoted, lines[i..j])
       case Table(header, rows) =>
         && k == Grid && MaximalRun(lines, Grid, i + 2, j)
         && header == Cells(lines[i]) && rows == Grids(lines[i + 2..j])
       case BulletList(bullets) => k == Bullets && MaximalRun(lines, Bullets, i, j) && bullets == Texts(Bullets, lines[i..j])
       case NumberList(numbered) => k == Numbers && MaximalRun(lines, Numbers, i, j) && numbered == Texts(Numbers, lines[i..j])
       case Paragraph(prose) => k == Prose && MaximalRun(lines, Prose, i, j) && prose == lines[i..j]
  }

  predicate BlankBetween(lines: seq<string>, i: nat, j: nat) {
    i <= j <= |lines| && forall n :: i <= n < j ==> Blank(lines[n])
  }

  function EndOf(ps: seq<Placed>): nat { if ps == [] then 0 else ps[|ps| - 1].to }

  /** The blocks account for the first `i` lines: in order, each line in one block or blank. */
  predicate ParsedTo(lines: seq<string>, ps: seq<Placed>, i: nat) {
    && (forall n :: 0 <= n < |ps| ==> BlockAt(lines, ps[n]))
    && (forall n :: 0 <= n < |ps| ==> BlankBetween(lines, EndOf(ps[..n]), ps[n].from))
    && BlankBetween(lines, EndOf(ps), i)
  }

  predicate IsParse(lines: seq<string>, ps: seq<Placed>) { ParsedTo(lines, ps, |lines|) }

  lemma BlockDetermined(lines: seq<string>, p: Placed, q: Placed)
    requires BlockAt(lines, p) && BlockAt(lines, q) && p.from == q.from
    ensures p == q
  {
    hide KindOf, Continues, QuoteText, BulletText, NumberText, Cells, HeadingText;
    if p.block.CodeBlock? {
      assert |p.block.code| == |q.block.code|;
    }
  }

  lemma ParseDrops(lines: seq<string>, ps: seq<Placed>, i: nat)
    requires ps != [] && ParsedTo(lines, ps, i)
    ensures ParsedTo(lines, ps[..|ps| - 1], ps[|ps| - 1].from)
  {
    hide BlockAt, BlankBetween;
    var front := ps[..|ps| - 1];
    forall n | 0 <= n < |front|
      ensures BlankBetween(lines, EndOf(front[..n]), front[n].from) && BlockAt(lines, front[n])
    {
      assert front[..n] == ps[..n] && front[n] == ps[n];
    }
  }

  /** The grammar is unambiguous. */
  lemma {:induction false} ParseUnique(lines: seq<string>, ps: seq<Placed>, qs: seq<Placed>)
    requires IsParse(lines, ps) && IsParse(lines, qs)
    ensures ps == qs
  {
    hide BlockAt, BlankBetween;
    if |ps| <= |qs| {
      ParsePrefix(lines, ps, qs, |ps|);
      ParseEnds(lines, ps, qs);
    } else {
      ParsePrefix(lines, qs, ps, |qs|);
      ParseEnds(lines, qs, ps);
    }
  }

  lemma KindNotBlank(lines: seq<string>, p: Placed)
    requires BlockAt(lines, p)
    ensures p.from < p.to <= |lines| && !Blank(lines[p.from])
  {
  }

  lemma ParseEnds(lines: seq<string>, ps: seq<Placed>, qs: seq<Placed>)
    requires IsParse(lines, ps) && IsParse(lines, qs) && |ps| <= |qs| && qs[..|ps|] == ps
    ensures ps == qs
  {
    hide BlockAt;
    if |ps| < |qs| {
      KindNotBlank(lines, qs[|ps|]);
      assert false;
    }
  }

  lemma {:induction false} ParsePrefix(lines: seq<string>, ps: seq<Placed>, qs: seq<Placed>, n: nat)
    requires IsParse(lines, ps) && IsParse(lines, qs) && n <= |ps| <= |qs|
    ensures ps[..n] == qs[..n]
  {
    hide BlockAt, Blank, BlankBetween, ParsedTo;
    if n > 0 {
      var m := n - 1;
      ParsePrefix(lines, ps, qs, m);
      BlockNth(lines, ps, m);
      BlockNth(lines, qs, m);
      GapEnds(lines, EndOf(ps[..m]), ps[m].from, qs[m].from);
      BlockDetermined(lines, ps[m], qs[m]);
      assert ps[..n] == ps[..m] + [ps[m]] && qs[..n] == qs[..m] + [qs[m]];
    }
  }

  lemma BlockNth(lines: seq<string>, ps: seq<Placed>, m: nat)
    requires IsParse(lines, ps) && m < |ps|
    ensures BlockAt(lines, ps[m]) && BlankBetween(lines, EndOf(ps[..m]), ps[m].from)
    ensures ps[m].from < |lines| && !Blank(lines[ps[m].from])
  {
    hide BlockAt, BlankBetween;
    KindNotBlank(lines, ps[m]);
  }

  lemma GapEnds(lines: seq<string>, at: nat, i: nat, j: nat)
    requires i < |lines| && j < |lines| && !Blank(lines[i]) && !Blank(lines[j])
    requires BlankBetween(lines, at, i) && BlankBetween(lines, at, j)
    ensures i == j
  {
    hide Blank;
  }

  /** The line is in that block and in no other. */
  predicate OnlyIn(ps: seq<Placed>, k: nat, n: nat) {
    n < |ps| && forall m :: 0 <= m < |ps| ==> (ps[m].from <= k < ps[m].to <==> m == n)
  }

  /** Every line that is not blank is in exactly one block. */
  lemma {:induction false} EachLineOnce(lines: seq<string>, ps: seq<Placed>, i: nat, k: nat) returns (n: nat)
    requires ParsedTo(lines, ps, i) && k < i && !Blank(lines[k])
    ensures OnlyIn(ps, k, n)
  {
    hide BlockAt, ParsedTo, Blank;
    LastGap(lines, ps, i);
    if ps == [] {
      assert false;
    } else {
      var l := |ps| - 1;
      var front, last := ps[..l], ps[l];
      ParseDrops(lines, ps, i);
      BlocksBefore(lines, front, last.from);
      assert ps == front + [last];
      if k < last.from {
        n := EachLineOnce(lines, front, last.from, k);
      } else {
        n := l;
      }
    }
  }

  lemma LastGap(lines: seq<string>, ps: seq<Placed>, i: nat)
    requires ParsedTo(lines, ps, i)
    ensures i <= |lines| && forall k :: EndOf(ps) <= k < i ==> Blank(lines[k])
    ensures ps != [] ==> ps[|ps| - 1].from < ps[|ps| - 1].to <= i
  {
    if ps != [] {
      KindNotBlank(lines, ps[|ps| - 1]);
    }
  }

  lemma {:induction false} BlocksBefore(lines: seq<string>, ps: seq<Placed>, i: nat)
    requires ParsedTo(lines, ps, i)
    ensures forall n :: 0 <= n < |ps| ==> ps[n].from < ps[n].to <= i
  {
    hide BlockAt, ParsedTo, Blank;
    LastGap(lines, ps, i);
    if ps != [] {
      var l := |ps| - 1;
      ParseDrops(lines, ps, i);
      BlocksBefore(lines, ps[..l], ps[l].from);
      assert ps == ps[..l] + [ps[l]];
    }
  }

  lemma ParseGrows(lines: seq<string>, ps: seq<Placed>, p: Placed)
    requires ParsedTo(lines, ps, p.from) && BlockAt(lines, p)
    ensures ParsedTo(lines, ps + [p], p.to)
  {
    hide BlockAt;
    KindNotBlank(lines, p);
    var qs := ps + [p];
    forall n | 0 <= n < |qs| ensures BlankBetween(lines, EndOf(qs[..n]), qs[n].from) && BlockAt(lines, qs[n]) {
      assert qs[..n] == ps[..n];
      assert n == |ps| ==> ps[..n] == ps;
    }
  }

  // ----- the scanner: one line at a time ---------------------------------------

  datatype Mode = Idle | In(k: Kind) | AtSeparator

  /** The scanner is free to start a block at this line. */
  predicate Listening(m: Mode, line: string) { m.Idle? || (m.In? && m.k != Code && !Continues(m.k, line)) }

  function Started(k: Kind): Mode {
    match k
    case Skip => Idle
    case Rule => Idle
    case Head => Idle
    case Grid => AtSeparator
    case _ => In(k)
  }

  function NextMode(m: Mode, line: string, next: Option<string>): Mode {
    if Listening(m, line) then Started(KindOf(line, next))
    else if m.AtSeparator? then In(Grid)
    else if Continues(m.k, line) then m
    else Idle
  }

  /** The mode in front of line `i`. */
  function ModeAt(lines: seq<string>, i: nat): Mode
    requires i <= |lines|
  {
    if i == 0 then Idle else NextMode(ModeAt(lines, i - 1), lines[i - 1], Next(lines, i - 1))
  }

  /** A stuck line outside every fence and table. */
  predicate SticksAt(lines: seq<string>, i: nat) {
    i < |lines| && Stuck(lines[i], Next(lines, i)) && Listening(ModeAt(lines, i), lines[i])
  }

  predicate NeverSticks(lines: seq<string>, i: nat) { forall n :: 0 <= n < i ==> !SticksAt(lines, n) }

  predicate Resting(lines: seq<string>, i: nat) { i <= |lines| && (i < |lines| ==> Listening(ModeAt(lines, i), lines[i])) }

  lemma {:induction false} RunModes(lines: seq<string>, k: Kind, i: nat, j: nat)
    requires i <= j <= |lines| && ModeAt(lines, i) == In(k)
    requires forall n :: i <= n < j ==> Continues(k, lines[n])
    ensures ModeAt(lines, j) == In(k) && forall n :: i <= n < j ==> !SticksAt(lines, n)
  {
    hide Continues, Stuck, KindOf;
    if i < j {
      RunModes(lines, k, i, j - 1);
    }
  }

  /** Where the run of continuing lines of a block starts and ends. */
  lemma BlockShape(lines: seq<string>, p: Placed) returns (e: nat)
    requires BlockAt(lines, p)
    ensures p.from < p.to <= |lines|
    ensures match KindOf(lines[p.from], Next(lines, p.from))
            case Code => MaximalRun(lines, Code, p.from + 1, e) && p.to == if e < |lines| then e + 1 else |lines|
            case Grid => MaximalRun(lines, Grid, p.from + 2, p.to)
            case Quoted => MaximalRun(lines, Quoted, p.from, p.to)
            case Bullets => MaximalRun(lines, Bullets, p.from, p.to)
            case Numbers => MaximalRun(lines, Numbers, p.from, p.to)
            case Prose => MaximalRun(lines, Prose, p.from, p.to)
            case Skip => false
            case _ => p.to == p.from + 1
  {
    hide KindOf, MaximalRun;
    e := if p.block.CodeBlock? then p.from + 1 + |p.block.code| else p.to;
  }

  lemma CodeModes(lines: seq<string>, i: nat, e: nat, j: nat)
    requires i <= e <= |lines| && ModeAt(lines, i) == In(Code) && MaximalRun(lines, Code, i, e)
    requires j == if e < |lines| then e + 1 else |lines|
    ensures Resting(lines, j) && forall n :: i <= n < j ==> !SticksAt(lines, n)
  {
    hide Continues, Stuck, KindOf;
    RunModes(lines, Code, i, e);
    if e < |lines| {
      assert ModeAt(lines, e + 1) == Idle;
    }
  }

  lemma PlainModes(lines: seq<string>, k: Kind, i: nat, j: nat)
    requires k != Code && MaximalRun(lines, k, i, j) && ModeAt(lines, i) == In(k)
    ensures Resting(lines, j) && forall n :: i <= n < j ==> !SticksAt(lines, n)
  {
    hide Continues, Stuck, KindOf;
    RunModes(lines, k, i, j);
  }

  /** After a whole block the scanner is listening again, and nothing in the block stuck. */
  lemma BlockModes(lines: seq<string>, p: Placed)
    requires BlockAt(lines, p) && Resting(lines, p.from) && !SticksAt(lines, p.from)
    ensures Resting(lines, p.to) && forall n :: p.from <= n < p.to ==> !SticksAt(lines, n)
  {
    hide BlockAt, KindOf, Stuck, Continues;
    var i, j := p.from, p.to;
    var e := BlockShape(lines, p);
    var k := KindOf(lines[i], Next(lines, i));
    assert ModeAt(lines, i + 1) == Started(k);
    match k
    case Code => CodeModes(lines, i + 1, e, j);
    case Rule =>
    case Head =>
    case Grid =>
      assert ModeAt(lines, i + 2) == In(Grid);
      PlainModes(lines, Grid, i + 2, j);
    case Quoted => PlainModes(lines, Quoted, i + 1, j);
    case Bullets => PlainModes(lines, Bullets, i + 1, j);
    case Numbers => PlainModes(lines, Numbers, i + 1, j);
    case Prose => PlainModes(lines, Prose, i + 1, j);
  }

  // ----- the parser ------------------------------------------------------------

  lemma GridHasSeparator(lines: seq<string>, i: nat)
    requires i < |lines|
    ensures KindOf(lines[i], Next(lines, i)) == Grid ==> i + 2 <= |lines|
  {
  }

  /** What the inner loop of a branch has when it is about to look at line `i`. */
  predicate Gathered(lines: seq<string>, k: Kind, from: nat, i: nat, items: seq<string>) {
    && from <= i <= |lines| && items == Texts(k, lines[from..i])
    && forall n :: from <= n < i ==> Continues(k, lines[n])
  }

  lemma GatherStep(lines: seq<string>, k: Kind, from: nat, i: nat, items: seq<string>)
    requires Gathered(lines, k, from, i, items) && i < |lines| && Continues(k, lines[i])
    ensures Gathered(lines, k, from, i + 1, items + [TextOf(k, lines[i])])
  {
    hide Continues, TextOf;
    assert lines[from..i + 1] == lines[from..i] + [lines[i]];
  }

  lemma GatherStarts(lines: seq<string>, k: Kind, from: nat)
    requires from <= |lines|
    ensures Gathered(lines, k, from, from, [])
  {
  }

  lemma LoopTests(line: string)
    ensures Continues(Code, line) == !FenceLine(line) && TextOf(Code, line) == line
    ensures Continues(Quoted, line) == QuoteLine(line) && TextOf(Quoted, line) == QuoteText(line)
    ensures Continues(Bullets, line) == BulletLine(line) && TextOf(Bullets, line) == BulletText(line)
    ensures Continues(Numbers, line) == NumberLine(line) && TextOf(Numbers, line) == NumberText(line)
    ensures Continues(Prose, line) == !IsBlockStart(line) && TextOf(Prose, line) == line
  {
    hide FenceLine, QuoteLine, BulletLine, NumberLine, IsBlockStart, QuoteText, BulletText, NumberText;
  }

  lemma KindContinues(line: string, next: Option<string>)
    ensures KindOf(line, next) in {Quoted, Bullets, Numbers} ==> Continues(KindOf(line, next), line)
  {
  }

  lemma GatherRun(lines: seq<string>, k: Kind, from: nat, i: nat, items: seq<string>)
    requires k in {Quoted, Bullets, Numbers, Prose} && from < |lines| && KindOf(lines[from], Next(lines, from)) == k
    requires Gathered(lines, k, from, i, items) && (i < |lines| ==> !Continues(k, lines[i]))
    requires k == Prose ==> from < i
    ensures from < i && MaximalRun(lines, k, from, i) && items == Texts(k, lines[from..i])
  {
    KindContinues(lines[from], Next(lines, from));
    hide KindOf, Continues, TextOf, Texts;
  }

  lemma QuotePlaced(lines: seq<string>, from: nat, i: nat, items: seq<string>)
    requires from < |lines| && KindOf(lines[from], Next(lines, from)) == Quoted
    requires Gathered(lines, Quoted, from, i, items) && (i < |lines| ==> !Continues(Quoted, lines[i]))
    ensures BlockAt(lines, Placed(Quote(items), from, i))
  {
    hide KindOf, Next, MaximalRun, Continues, TextOf, Texts, Grids, Cells, HeadingText, HeadingPrefix;
    GatherRun(lines, Quoted, from, i, items);
  }

  lemma BulletsPlaced(lines: seq<string>, from: nat, i: nat, items: seq<string>)
    requires from < |lines| && KindOf(lines[from], Next(lines, from)) == Bullets
    requires Gathered(lines, Bullets, from, i, items) && (i < |lines| ==> !Continues(Bullets, lines[i]))
    ensures BlockAt(lines, Placed(BulletList(items), from, i))
  {
    hide KindOf, Next, MaximalRun, Continues, TextOf, Texts, Grids, Cells, HeadingText, HeadingPrefix;
    GatherRun(lines, Bullets, from, i, items);
  }

  lemma NumbersPlaced(lines: seq<string>, from: nat, i: nat, items: seq<string>)
    requires from < |lines| && KindOf(lines[from], Next(lines, from)) == Numbers
    requires Gathered(lines, Numbers, from, i, items) && (i < |lines| ==> !Continues(Numbers, lines[i]))
    ensures BlockAt(lines, Placed(NumberList(items), from, i))
  {
    hide KindOf, Next, MaximalRun, Continues, TextOf, Texts, Grids, Cells, HeadingText, HeadingPrefix;
    GatherRun(lines, Numbers, from, i, items);
  }

  lemma ProseRun(lines: seq<string>, from: nat, i: nat, items: seq<string>)
    requires from < |lines| && KindOf(lines[from], Next(lines, from)) == Prose
    requires Gathered(lines, Prose, from, i, items) && (i < |lines| ==> !Continues(Prose, lines[i])) && from < i
    ensures MaximalRun(lines, Prose, from, i) && items == lines[from..i]
  {
    hide KindOf, Continues, TextOf, Texts, MaximalRun;
    GatherRun(lines, Prose, from, i, items);
    PlainTexts(lines[from..i]);
  }

  lemma ProsePlaced(lines: seq<string>, from: nat, i: nat, items: seq<string>)
    requires from < |lines| && KindOf(lines[from], Next(lines, from)) == Prose
    requires Gathered(lines, Prose, from, i, items) && (i < |lines| ==> !Continues(Prose, lines[i])) && from < i
    ensures BlockAt(lines, Placed(Paragraph(items), from, i))
  {
    hide KindOf, Next, MaximalRun, Continues, TextOf, Texts, Grids, Cells, HeadingText, HeadingPrefix;
    ProseRun(lines, from, i, items);
  }

  lemma PlainTexts(ls: seq<string>)
    ensures Texts(Prose, ls) == ls && Texts(Code, ls) == ls
  {
  }

  lemma CodeEnds(lines: seq<string>, from: nat, i: nat, code: seq<string>)
    requires from < |lines| && KindOf(lines[from], Next(lines, from)) == Code
    requires Gathered(lines, Code, from + 1, i, code) && (i < |lines| ==> !Continues(Code, lines[i]))
    ensures BlockAt(lines, Placed(CodeBlock(code), from, if i < |lines| then i + 1 else i))
  {
    hide KindOf, Continues, QuoteText, BulletText, NumberText;
    assert code == lines[from + 1..i];
  }

  method TakeCode(lines: seq<string>, start: nat) returns (p: Placed)
    requires start < |lines| && KindOf(lines[start], Next(lines, start)) == Code
    ensures BlockAt(lines, p) && p.from == start
  {
    hide BlockAt, KindOf, Continues, FenceLine, Texts;
    var code, i := [], start + 1;
    GatherStarts(lines, Code, i);
    while i < |lines| && !FenceLine(lines[i])
      invariant Gathered(lines, Code, start + 1, i, code)
    {
      LoopTests(lines[i]);
      GatherStep(lines, Code, start + 1, i, code);
      code := code + [lines[i]];
      i := i + 1;
    }
    if i < |lines| {
      LoopTests(lines[i]);
    }
    CodeEnds(lines, start, i, code);
    i := i + 1;
    return Placed(CodeBlock(code), start, if i <= |lines| then i else |lines|);
  }

  method TakeQuote(lines: seq<string>, start: nat) returns (p: Placed)
    requires start < |lines| && KindOf(lines[start], Next(lines, start)) == Quoted
    ensures BlockAt(lines, p) && p.from == start
  {
    hide BlockAt, KindOf, Continues, Gathered, QuoteLine, QuoteText;
    var items, i := [], start;
    GatherStarts(lines, Quoted, i);
    while i < |lines| && QuoteLine(lines[i])
      invariant i <= |lines| && Gathered(lines, Quoted, start, i, items)
    {
      LoopTests(lines[i]);
      GatherStep(lines, Quoted, start, i, items);
      items := items + [QuoteText(lines[i])];
      i := i + 1;
    }
    if i < |lines| {
      LoopTests(lines[i]);
    }
    QuotePlaced(lines, start, i, items);
    return Placed(Quote(items), start, i);
  }

  /** The same for the rows of a table. */
  predicate RowsGathered(lines: seq<string>, from: nat, i: nat, rows: seq<seq<string>>) {
    && from <= i <= |lines| && rows == Grids(lines[from..i])
    && forall n :: from <= n < i ==> Continues(Grid, lines[n])
  }

  lemma RowStep(lines: seq<string>, from: nat, i: nat, rows: seq<seq<string>>)
    requires RowsGathered(lines, from, i, rows) && i < |lines| && Continues(Grid, lines[i])
    ensures RowsGathered(lines, from, i + 1, rows + [Cells(lines[i])])
  {
    hide Continues, Cells;
    assert lines[from..i + 1] == lines[from..i] + [lines[i]];
  }

  lemma TableEnds(lines: seq<string>, start: nat, i: nat, rows: seq<seq<string>>)
    requires start < |lines| && KindOf(lines[start], Next(lines, start)) == Grid
    requires RowsGathered(lines, start + 2, i, rows) && (i < |lines| ==> !Continues(Grid, lines[i]))
    ensures BlockAt(lines, Placed(Table(Cells(lines[start]), rows), start, i))
  {
    hide KindOf, Continues, Texts, Grids, Cells, HeadingText, HeadingPrefix;
    assert MaximalRun(lines, Grid, start + 2, i);
  }

  method TakeTable(lines: seq<string>, start: nat) returns (p: Placed)
    requires start < |lines| && KindOf(lines[start], Next(lines, start)) == Grid
    ensures BlockAt(lines, p) && p.from == start
  {
    GridHasSeparator(lines, start);
    hide BlockAt, Cells, KindOf, Blank, HasPipe, IsBlockStart;
    var header := Cells(lines[start]);
    var rows, i := [], start + 2;
    while i < |lines| && HasPipe(lines[i]) && !Blank(lines[i])
      invariant i <= |lines| && RowsGathered(lines, start + 2, i, rows)
    {
      RowStep(lines, start + 2, i, rows);
      rows := rows + [Cells(lines[i])];
      i := i + 1;
    }
    TableEnds(lines, start, i, rows);
    return Placed(Table(header, rows), start, i);
  }

  method TakeBullets(lines: seq<string>, start: nat) returns (p: Placed)
    requires start < |lines| && KindOf(lines[start], Next(lines, start)) == Bullets
    ensures BlockAt(lines, p) && p.from == start
  {
    hide BlockAt, KindOf, Continues, Gathered, BulletLine, BulletText;
    var items, i := [], start;
    GatherStarts(lines, Bullets, i);
    while i < |lines| && BulletLine(lines[i])
      invariant i <= |lines| && Gathered(lines, Bullets, start, i, items)
    {
      LoopTests(lines[i]);
      GatherStep(lines, Bullets, start, i, items);
      items := items + [BulletText(lines[i])];
      i := i + 1;
    }
    if i < |lines| {
      LoopTests(lines[i]);
    }
    BulletsPlaced(lines, start, i, items);
    return Placed(BulletList(items), start, i);
  }

  method TakeNumbers(lines: seq<string>, start: nat) returns (p: Placed)
    requires start < |lines| && KindOf(lines[start], Next(lines, start)) == Numbers
    ensures BlockAt(lines, p) && p.from == start
  {
    hide BlockAt, KindOf, Continues, Gathered, NumberLine, NumberText;
    var items, i := [], start;
    GatherStarts(lines, Numbers, i);
    while i < |lines| && NumberLine(lines[i])
      invariant i <= |lines| && Gathered(lines, Numbers, start, i, items)
    {
      LoopTests(lines[i]);
      GatherStep(lines, Numbers, start, i, items);
      items := items + [NumberText(lines[i])];
      i := i + 1;
    }
    if i < |lines| {
      LoopTests(lines[i]);
    }
    NumbersPlaced(lines, start, i, items);
    return Placed(NumberList(items), start, i);
  }

  /** The paragraph loop; None when it consumes nothing. */
  method TakeParagraph(lines: seq<string>, start: nat) returns (p: Option<Placed>)
    requires start < |lines| && KindOf(lines[start], Next(lines, start)) == Prose
    ensures p.None? <==> Stuck(lines[start], Next(lines, start))
    ensures p.Some? ==> BlockAt(lines, p.value) && p.value.from == start
  {
    BlockStartTakenIff(lines[start], Next(lines, start));
    hide BlockAt, KindOf, Continues, Stuck, IsBlockStart, Gathered;
    var prose, i := [], start;
    GatherStarts(lines, Prose, i);
    while i < |lines| && !IsBlockStart(lines[i])
      invariant start <= i <= |lines| && Gathered(lines, Prose, start, i, prose)
      invariant i == start || !IsBlockStart(lines[start])
    {
      LoopTests(lines[i]);
      GatherStep(lines, Prose, start, i, prose);
      prose := prose + [lines[i]];
      i := i + 1;
    }
    if i == start {
      return None;
    }
    if i < |lines| {
      LoopTests(lines[i]);
    }
    ProsePlaced(lines, start, i, prose);
    return Some(Placed(Paragraph(prose), start, i));
  }

  /** `renderBlocks`.  `hung` is the line at which the outer loop would repeat an iteration that
      changes nothing: the parse exists, and is returned, exactly when the scanner never meets a
      stuck line. */
  method RenderBlocks(md: string) returns (blocks: seq<Placed>, hung: Option<nat>)
    ensures hung.None? ==> IsParse(Lines(md), blocks) && NeverSticks(Lines(md), |Lines(md)|)
    ensures hung.Some? ==> SticksAt(Lines(md), hung.value) && ParsedTo(Lines(md), blocks, hung.value)
                           && NeverSticks(Lines(md), hung.value)
  {
    hide Lines, KindOf, Stuck, BlockAt, ModeAt, NextMode, BlankBetween;
    var lines := Lines(md);
    var i := 0;
    blocks := [];
    StartsParsed(lines);
    while i < |lines|
      invariant i <= |lines| && ParsedTo(lines, blocks, i) && Resting(lines, i) && NeverSticks(lines, i)
    {
      var line, next := lines[i], Next(lines, i);
      KindCases(line, next);
      if Blank(line) {
        SkipKeeps(lines, blocks, i);
        i := i + 1;
        continue;
      }
      var p: Placed;
      if FenceLine(line) {
        p := TakeCode(lines, i);
      } else if RuleLine(line) {
        p := Placed(RuleBlock, i, i + 1);
        OneLineBlock(lines, p);
      } else if HeadingLine(line) {
        p := Placed(Heading(RunOf(line, '#'), HeadingText(line)), i, i + 1);
        OneLineBlock(lines, p);
      } else if QuoteLine(line) {
        p := TakeQuote(lines, i);
      } else if TableStart(line, next) {
        p := TakeTable(lines, i);
      } else if BulletLine(line) {
        p := TakeBullets(lines, i);
      } else if NumberLine(line) {
        p := TakeNumbers(lines, i);
      } else {
        var para := TakeParagraph(lines, i);
        if para.None? {
          return blocks, Some(i);
        }
        p := para.value;
      }
      BlockKeeps(lines, blocks, p);
      blocks := blocks + [p];
      i := p.to;
    }
    return blocks, None;
  }

  lemma StartsParsed(lines: seq<string>)
    ensures ParsedTo(lines, [], 0) && Resting(lines, 0)
  {
  }

  lemma OneLineBlock(lines: seq<string>, p: Placed)
    requires p.from < |lines| && p.to == p.from + 1
    requires p.block.RuleBlock? || p.block.Heading?
    requires p.block.RuleBlock? ==> KindOf(lines[p.from], Next(lines, p.from)) == Rule
    requires p.block.Heading? ==>
               && KindOf(lines[p.from], Next(lines, p.from)) == Head && HeadingPrefix(lines[p.from])
               && p.block == Heading(RunOf(lines[p.from], '#'), HeadingText(lines[p.from]))
    ensures BlockAt(lines, p)
  {
  }

  lemma KindCases(line: string, next: Option<string>)
    ensures Blank(line) <==> KindOf(line, next) == Skip
    ensures !Blank(line) ==>
              && (FenceLine(line) <==> KindOf(line, next) == Code)
              && (!FenceLine(line) ==>
                    && (RuleLine(line) <==> KindOf(line, next) == Rule)
                    && (!RuleLine(line) ==>
                          && (HeadingLine(line) <==> KindOf(line, next) == Head)
                          && (!HeadingLine(line) ==>
                                && (QuoteLine(line) <==> KindOf(line, next) == Quoted)
                                && (!QuoteLine(line) ==>
                                      && (TableStart(line, next) <==> KindOf(line, next) == Grid)
                                      && (!TableStart(line, next) ==>
                                            && (BulletLine(line) <==> KindOf(line, next) == Bullets)
                                            && (!BulletLine(line) ==>
                                                  && (NumberLine(line) <==> KindOf(line, next) == Numbers)
                                                  && (!NumberLine(line) ==> KindOf(line, next) == Prose)))))))
  {
  }

  lemma NotProseNotStuck(line: string, next: Option<string>)
    requires KindOf(line, next) != Prose
    ensures !Stuck(line, next)
  {
    BlockStartTakenIff(line, next);
  }

  lemma BlankIdles(m: Mode, line: string, next: Option<string>)
    requires Blank(line) && Listening(m, line)
    ensures NextMode(m, line, next) == Idle && !Stuck(line, next)
  {
    NotProseNotStuck(line, next);
    hide Blank, Continues, Stuck;
  }

  lemma {:induction false} GapSilent(lines: seq<string>, i: nat, j: nat)
    requires BlankBetween(lines, i, j) && Resting(lines, i) && NeverSticks(lines, i)
    ensures Resting(lines, j) && NeverSticks(lines, j)
  {
    hide Blank, Continues, Stuck, Next, NextMode;
    if i < j {
      GapSilent(lines, i, j - 1);
      BlankIdles(ModeAt(lines, j - 1), lines[j - 1], Next(lines, j - 1));
    }
  }

  lemma SkipKeeps(lines: seq<string>, ps: seq<Placed>, i: nat)
    requires i < |lines| && Blank(lines[i]) && ParsedTo(lines, ps, i) && Resting(lines, i) && NeverSticks(lines, i)
    ensures ParsedTo(lines, ps, i + 1) && Resting(lines, i + 1) && NeverSticks(lines, i + 1)
  {
    hide BlockAt, Blank;
    GapSilent(lines, i, i + 1);
  }

  lemma BlockKeeps(lines: seq<string>, ps: seq<Placed>, p: Placed)
    requires ParsedTo(lines, ps, p.from) && BlockAt(lines, p) && Resting(lines, p.from) && NeverSticks(lines, p.from)
    ensures ParsedTo(lines, ps + [p], p.to) && Resting(lines, p.to) && NeverSticks(lines, p.to) && p.from < p.to <= |lines|
  {
    BlockNotStuck(lines, p);
    hide BlockAt, KindOf, Stuck;
    KindNotBlank(lines, p);
    ParseGrows(lines, ps, p);
    BlockModes(lines, p);
  }

  lemma BlockNotStuck(lines: seq<string>, p: Placed)
    requires BlockAt(lines, p)
    ensures !SticksAt(lines, p.from)
  {
    var line, next := lines[p.from], Next(lines, p.from);
    BlockStartTakenIff(line, next);
    if KindOf(line, next) == Prose {
      assert Continues(Prose, line);
    }
  }

  /** A parse exists only where the scanner never sticks, so `RenderBlocks` hangs only where there
      is none. */
  lemma {:induction false} ParseNeverSticks(lines: seq<string>, ps: seq<Placed>, i: nat)
    requires ParsedTo(lines, ps, i)
    ensures Resting(lines, i) && NeverSticks(lines, i)
  {
    hide BlockAt, Blank, ParsedTo;
    LastGap(lines, ps, i);
    if ps == [] {
      StartsParsed(lines);
      GapSilent(lines, 0, i);
    } else {
      var l := |ps| - 1;
      ParseDrops(lines, ps, i);
      ParseNeverSticks(lines, ps[..l], ps[l].from);
      LastBlock(lines, ps, i);
      BlockKeeps(lines, ps[..l], ps[l]);
      GapSilent(lines, ps[l].to, i);
    }
  }

  lemma LastBlock(lines: seq<string>, ps: seq<Placed>, i: nat)
    requires ps != [] && ParsedTo(lines, ps, i)
    ensures BlockAt(lines, ps[|ps| - 1])
  {
    hide BlockAt, BlankBetween;
  }

  // ----- when the parser hangs -------------------------------------------------

  /** LF and CRLF are the only line terminators. */
  predicate PlainTerminators(md: string) {
    forall i :: 0 <= i < |md| && IsTerminator(md[i]) && md[i] != '\n' ==> md[i] == '\r' && i + 1 < |md| && md[i + 1] == '\n'
  }

  lemma {:induction false} CrlfToLfPlain(s: string)
    requires PlainTerminators(s)
    ensures forall i :: 0 <= i < |CrlfToLf(s)| && IsTerminator(CrlfToLf(s)[i]) ==> CrlfToLf(s)[i] == '\n'
  {
    if s != "" {
      if |s| >= 2 && s[0] == '\r' && s[1] == '\n' {
        assert PlainTerminators(s[2..]);
        CrlfToLfPlain(s[2..]);
      } else {
        assert s[0] != '\r';
        assert PlainTerminators(s[1..]);
        CrlfToLfPlain(s[1..]);
      }
    }
  }

  lemma PlainLines(md: string)
    requires PlainTerminators(md)
    ensures forall i :: 0 <= i < |Lines(md)| ==> NoTerminator(Lines(md)[i])
  {
    var s, lines := CrlfToLf(md), Lines(md);
    CrlfToLfPlain(md);
    SplitJoins(s, '\n');
    hide CrlfToLf, Split, Join;
    var ls, ps := 0x2028 as char, 0x2029 as char;
    JoinFree(lines, '\n', '\r');
    JoinFree(lines, '\n', ls);
    JoinFree(lines, '\n', ps);
  }

  /** Each CRLF becomes an LF, and text without one is left as it is: so a document has the same lines
      whichever of the two ends them. */
  lemma {:induction false} CrlfBreaks(a: string, b: string)
    ensures CrlfToLf(a + ("\r\n" + b)) == CrlfToLf(a) + ("\n" + CrlfToLf(b))
    decreases |a|
  {
    hide CrlfToLf, FirstRead;
    var tail := "\r\n" + b;
    if a == "" {
      assert a + tail == tail;
      CrlfFirst(b);
    } else {
      var n, first := CrlfStep(a, tail);
      CrlfBreaks(a[n..], b);
      Associate(first, CrlfToLf(a[n..]), "\n" + CrlfToLf(b));
    }
  }

  lemma CrlfFirst(b: string)
    ensures CrlfToLf("\r\n" + b) == "\n" + CrlfToLf(b) && CrlfToLf("") + ("\n" + CrlfToLf(b)) == "\n" + CrlfToLf(b)
  {
    assert ("\r\n" + b)[2..] == b;
  }

  /** How much of a text is read first, and what becomes of it. */
  function FirstRead(s: string): nat { if |s| >= 2 && s[0] == '\r' && s[1] == '\n' then 2 else 1 }

  lemma CrlfUnfold(s: string)
    requires s != ""
    ensures FirstRead(s) <= |s|
    ensures CrlfToLf(s) == (if FirstRead(s) == 2 then "\n" else [s[0]]) + CrlfToLf(s[FirstRead(s)..])
  {
  }

  lemma SameFirst(a: string, tail: string)
    requires a != "" && tail != "" && tail[0] != '\n'
    ensures FirstRead(a + tail) == FirstRead(a) <= |a| && (a + tail)[0] == a[0]
    ensures (a + tail)[FirstRead(a)..] == a[FirstRead(a)..] + tail
  {
    assert (|a| == 1 ==> (a + tail)[1] == tail[0]) && (|a| >= 2 ==> (a + tail)[1] == a[1]);
  }

  /** It is the same before more text, unless that starts with an LF. */
  lemma CrlfStep(a: string, tail: string) returns (n: nat, first: string)
    requires a != "" && tail != "" && tail[0] != '\n'
    ensures 0 < n <= |a| && CrlfToLf(a) == first + CrlfToLf(a[n..]) && CrlfToLf(a + tail) == first + CrlfToLf(a[n..] + tail)
  {
    hide CrlfToLf;
    n := FirstRead(a);
    first := if n == 2 then "\n" else [a[0]];
    hide FirstRead;
    CrlfUnfold(a);
    CrlfUnfold(a + tail);
    SameFirst(a, tail);
  }

  lemma {:induction false} NoCrlfStays(s: string)
    requires forall i :: 0 <= i < |s| - 1 ==> !(s[i] == '\r' && s[i + 1] == '\n')
    ensures CrlfToLf(s) == s
  {
    if s != "" {
      NoCrlfStays(s[1..]);
      assert s == [s[0]] + s[1..];
    }
  }

  /** No heading can be cut short by a terminator, so every plain document has a parse. */
  lemma PlainNeverSticks(md: string)
    requires PlainTerminators(md)
    ensures NeverSticks(Lines(md), |Lines(md)|)
  {
    hide Lines, TableStart, RunOf;
    PlainLines(md);
    var lines := Lines(md);
    forall i | 0 <= i < |lines| ensures !SticksAt(lines, i) {
      if HeadingPrefix(lines[i]) {
        assert NoTerminator(HeadingText(lines[i]));
      }
    }
  }

  /** A heading with a lone carriage return in it: `isBlockStart` accepts the line, no branch
      takes it, and the paragraph loop consumes nothing. */
  lemma LoneCarriageReturnSticks()
    ensures SticksAt(Lines("# a\rb"), 0) && !PlainTerminators("# a\rb")
  {
    var md := "# a\rb";
    LoneCrLines();
    var line := Lines(md)[0];
    assert RunOf(line, '#') == 1;
    assert line[1..] == " a\rb" && Spaces(line[1..]) == 1;
    assert HeadingText(line)[1] == '\r';
    assert line == md && md[2 + 1] == '\r' && md[4] == 'b';
  }

  lemma LoneCrLines()
    ensures Lines("# a\rb") == ["# a\rb"]
  {
    assert CrlfToLf("b") == "b";
    assert CrlfToLf("\rb") == "\rb";
    assert CrlfToLf("a\rb") == "a\rb";
    assert CrlfToLf(" a\rb") == " a\rb";
    assert CrlfToLf("# a\rb") == "# a\rb";
    SplitFree("# a\rb", '\n');
  }

  // ----- the tests on a line as the patterns they stand for -----------------------

  function Run(c: char, n: nat): string { seq(n, i => c) }

  lemma {:induction false} RunFits(c: char, n: nat, rest: string)
    requires rest == "" || rest[0] != c
    ensures RunOf(Run(c, n) + rest, c) == n
  {
    if n == 0 {
      assert Run(c, n) + rest == rest;
    } else {
      RunFits(c, n - 1, rest);
      assert (Run(c, n) + rest)[1..] == Run(c, n - 1) + rest;
    }
  }

  lemma TrimEmptyIff(s: string)
    ensures Trim(s) == "" <==> AllSpace(s)
  {
    hide IsSpace;
    if Spaces(s) < |s| {
      TrimStarts(s);
    } else {
      assert s[Spaces(s)..] == "";
    }
  }

  /** A blank line is white space; a fence is three backticks behind white space; a quote starts with `>`. */
  lemma BlankFenceQuoteIff(line: string)
    ensures Blank(line) <==> AllSpace(line)
    ensures FenceLine(line) <==> exists pad, rest :: AllSpace(pad) && line == pad + "```" + rest
    ensures QuoteLine(line) <==> ">" <= line
  {
    TrimEmptyIff(line);
    if FenceLine(line) {
      var _, _ := FenceParts(line);
    }
    forall pad, rest | AllSpace(pad) && line == pad + "```" + rest ensures FenceLine(line) {
      FenceFits(pad, rest);
    }
  }

  lemma FenceParts(line: string) returns (pad: string, rest: string)
    requires FenceLine(line)
    ensures AllSpace(pad) && line == pad + "```" + rest
  {
    hide IsSpace, AllSpace;
    var k := Spaces(line);
    var tail := line[k..];
    TrimEndEnds(tail);
    SpacesSplit(line);
    assert tail[..3] == "```";
    assert tail == tail[..3] + tail[3..];
    pad, rest := line[..k], tail[3..];
  }

  lemma FenceFits(pad: string, rest: string)
    requires AllSpace(pad)
    ensures FenceLine(pad + "```" + rest)
  {
    var tail := "```" + rest;
    SpacesOfPad(pad, tail);
    assert pad + "```" + rest == pad + tail;
    assert (pad + tail)[|pad|..] == tail;
    TrimEndKeeps(tail, 2);
  }

  lemma {:induction false} TrimEndKeeps(s: string, i: nat)
    requires i < |s| && !IsSpace(s[i])
    ensures s[..i + 1] <= TrimEnd(s)
  {
    hide IsSpace;
    if IsSpace(s[|s| - 1]) {
      TrimEndKeeps(s[..|s| - 1], i);
      assert s[..|s| - 1][..i + 1] == s[..i + 1];
    }
  }

  /** A rule is three or more of one of `-`, `*`, `_`, with white space around. */
  lemma RuleIff(line: string)
    ensures RuleLine(line) <==> exists c, n :: c in {'-', '*', '_'} && n >= 3 && Trim(line) == Run(c, n)
  {
    var t := Trim(line);
    hide Trim;
    if RuleLine(line) {
      var c := t[0];
      assert t == Run(c, |t|);
    }
  }

  /** A heading starts with one to six `#` and white space. */
  lemma HeadingIff(line: string)
    ensures HeadingPrefix(line) <==>
            exists n: nat, c, rest :: 1 <= n <= 6 && IsSpace(c) && line == Run('#', n) + [c] + rest
  {
    hide IsSpace;
    if HeadingPrefix(line) {
      var h := RunOf(line, '#');
      assert line[..h] == Run('#', h);
      assert line == line[..h] + [line[h]] + line[h + 1..];
    }
    forall n: nat, c, rest | 1 <= n <= 6 && IsSpace(c) && line == Run('#', n) + [c] + rest ensures HeadingPrefix(line) {
      HashIsNoSpace();
      RunFits('#', n, [c] + rest);
      assert line == Run('#', n) + ([c] + rest);
    }
  }

  lemma HashIsNoSpace()
    ensures !IsSpace('#') && !IsSpace('-') && !IsSpace('*') && !IsSpace('+') && !IsSpace('.')
    ensures forall c: char :: '0' <= c <= '9' ==> !IsSpace(c)
  {
  }

  lemma BulletParts(line: string) returns (pad: string, mark: char, c: char, rest: string)
    requires BulletLine(line)
    ensures AllSpace(pad) && mark in {'-', '*', '+'} && IsSpace(c) && line == pad + [mark, c] + rest
  {
    hide IsSpace, AllSpace;
    var k := Spaces(line);
    SpacesSplit(line);
    pad, mark, c, rest := line[..k], line[k], line[k + 1], line[k + 2..];
  }

  lemma BulletFits(pad: string, mark: char, c: char, rest: string)
    requires AllSpace(pad) && mark in {'-', '*', '+'} && IsSpace(c)
    ensures BulletLine(pad + [mark, c] + rest)
  {
    HashIsNoSpace();
    hide IsSpace, AllSpace;
    SpacesOfPad(pad, [mark, c] + rest);
    assert pad + [mark, c] + rest == pad + ([mark, c] + rest);
  }

  /** A bullet is `-`, `*` or `+` between white space, of which only the second is required. */
  lemma BulletIff(line: string)
    ensures BulletLine(line) <==>
            exists pad, mark, c, rest :: AllSpace(pad) && mark in {'-', '*', '+'} && IsSpace(c) && line == pad + [mark, c] + rest
  {
    hide BulletLine, IsSpace, AllSpace;
    if BulletLine(line) {
      var _, _, _, _ := BulletParts(line);
    }
    forall pad, mark, c, rest | AllSpace(pad) && mark in {'-', '*', '+'} && IsSpace(c) && line == pad + [mark, c] + rest
      ensures BulletLine(line)
    {
      BulletFits(pad, mark, c, rest);
    }
  }

  predicate Decimal(s: string) { s != "" && forall i :: 0 <= i < |s| ==> '0' <= s[i] <= '9' }

  lemma {:induction false} DigitsFit(d: string, rest: string)
    requires forall i :: 0 <= i < |d| ==> '0' <= d[i] <= '9'
    requires rest == "" || !('0' <= rest[0] <= '9')
    ensures Digits(d + rest) == |d|
  {
    if d == "" {
      assert d + rest == rest;
    } else {
      DigitsFit(d[1..], rest);
      assert (d + rest)[1..] == d[1..] + rest;
    }
  }

  /** A numbered line is digits and a dot between white space, of which only the second is required. */
  lemma NumberIff(line: string)
    ensures NumberLine(line) <==>
            exists pad, d, c, rest :: AllSpace(pad) && Decimal(d) && IsSpace(c) && line == pad + d + ['.', c] + rest
  {
    hide IsSpace, AllSpace;
    if NumberLine(line) {
      var _, _, _, _ := NumberParts(line);
    }
    forall pad, d, c, rest | AllSpace(pad) && Decimal(d) && IsSpace(c) && line == pad + d + ['.', c] + rest
      ensures NumberLine(line)
    {
      NumberFits(pad, d, c, rest);
    }
  }

  lemma DecimalTail(tail: string) returns (d: string, c: char, rest: string)
    requires var n := Digits(tail); 0 < n && n + 1 < |tail| && tail[n] == '.' && IsSpace(tail[n + 1])
    ensures Decimal(d) && IsSpace(c) && tail == d + (['.', c] + rest)
  {
    hide IsSpace;
    var n := Digits(tail);
    d, c, rest := tail[..n], tail[n + 1], tail[n + 2..];
    CutThree(tail, n);
  }

  lemma CutThree(s: string, n: nat)
    requires n + 1 < |s|
    ensures s == s[..n] + ([s[n], s[n + 1]] + s[n + 2..])
  {
  }

  lemma NumberTail(line: string)
    requires NumberLine(line)
    ensures var tail := line[Spaces(line)..];
            var n := Digits(tail);
            0 < n && n + 1 < |tail| && tail[n] == '.' && IsSpace(tail[n + 1])
  {
    hide IsSpace;
  }

  lemma NumberParts(line: string) returns (pad: string, d: string, c: char, rest: string)
    requires NumberLine(line)
    ensures AllSpace(pad) && Decimal(d) && IsSpace(c) && line == pad + d + ['.', c] + rest
  {
    hide IsSpace, AllSpace, NumberLine, Spaces, Digits, Decimal;
    NumberTail(line);
    SpacesSplit(line);
    pad := line[..Spaces(line)];
    d, c, rest := DecimalTail(line[Spaces(line)..]);
    Associate(pad + d, ['.', c], rest);
    Associate(pad, d, ['.', c] + rest);
  }

  lemma NumberFits(pad: string, d: string, c: char, rest: string)
    requires AllSpace(pad) && Decimal(d) && IsSpace(c)
    ensures NumberLine(pad + d + ['.', c] + rest)
  {
    HashIsNoSpace();
    hide IsSpace, AllSpace;
    var line, tail := pad + d + ['.', c] + rest, d + (['.', c] + rest);
    assert line == pad + tail;
    SpacesOfPad(pad, tail);
    assert line[|pad|..] == tail;
    DigitsFit(d, ['.', c] + rest);
    assert line[|pad| + |d|] == '.' && line[|pad| + |d| + 1] == c;
  }

  /** A separator line holds a dash and a pipe, and every cell of it is a dash cell; a table starts at
      a line with a pipe before such a line. */
  lemma TableStartIff(lines: seq<string>, i: nat)
    requires i < |lines|
    ensures TableStart(lines[i], Next(lines, i)) <==>
            && '|' in lines[i] && i + 1 < |lines| && '-' in lines[i + 1] && '|' in lines[i + 1]
            && forall c :: c in Cells(lines[i + 1]) ==> DashCell(c)
  {
    hide Cells, DashCell;
    if i + 1 < |lines| {
      var cells := Cells(lines[i + 1]);
      assert forall k :: 0 <= k < |cells| ==> cells[k] in cells;
    }
  }

  /** Which branch takes a line: the first whose pattern fits, in the order of the source. */
  lemma BranchOrder(line: string, next: Option<string>)
    ensures var k := KindOf(line, next);
            && (k == Skip <==> Blank(line))
            && (k == Code <==> FenceLine(line) && k != Skip)
            && (k == Rule <==> RuleLine(line) && k !in {Skip, Code})
            && (k == Head <==> HeadingLine(line) && k !in {Skip, Code, Rule})
            && (k == Quoted <==> QuoteLine(line) && k !in {Skip, Code, Rule, Head})
            && (k == Grid <==> TableStart(line, next) && k !in {Skip, Code, Rule, Head, Quoted})
            && (k == Bullets <==> BulletLine(line) && k !in {Skip, Code, Rule, Head, Quoted, Grid})
            && (k == Numbers <==> NumberLine(line) && k !in {Skip, Code, Rule, Head, Quoted, Grid, Bullets})
  {
    hide Blank, FenceLine, RuleLine, HeadingLine, QuoteLine, TableStart, BulletLine, NumberLine;
  }

  // ----- what the items keep of their lines --------------------------------------

  /** Cutting a line at `i`, after the marker character there, and after the gap behind it. */
  lemma Cut(line: string, i: nat, n: nat)
    requires i < |line| && i + 1 + n <= |line|
    ensures line == line[..i] + [line[i]] + line[i + 1..][..n] + line[i + 1 + n..]
    ensures line[i + 1..][n..] == line[i + 1 + n..]
  {
  }

  /** A bullet's text is its line without the marker and the white space around it. */
  lemma BulletKeepsText(line: string) returns (indent: string, mark: char, gap: string)
    requires BulletLine(line)
    ensures line == indent + [mark] + gap + BulletText(line) && mark in "-*+"
    ensures AllSpace(indent) && AllSpace(gap) && gap != ""
    ensures BulletText(line) != "" ==> !IsSpace(BulletText(line)[0])
  {
    hide IsSpace, Spaces, AllSpace;
    var k := Spaces(line);
    var tail := line[k + 1..];
    SpacesSplit(line);
    SpacesSplit(tail);
    Cut(line, k, Spaces(tail));
    return line[..k], line[k], tail[..Spaces(tail)];
  }

  lemma NumberKeepsText(line: string) returns (front: string, gap: string)
    requires NumberLine(line)
    ensures line == front + "." + gap + NumberText(line) && AllSpace(gap) && gap != ""
    ensures var k := Spaces(line); k < |front| && forall i :: k <= i < |front| ==> '0' <= front[i] <= '9'
    ensures NumberText(line) != "" ==> !IsSpace(NumberText(line)[0])
  {
    hide IsSpace, Spaces, Digits, AllSpace;
    var k := Spaces(line);
    var d := k + Digits(line[k..]);
    var tail := line[d + 1..];
    SpacesSplit(tail);
    Cut(line, d, Spaces(tail));
    front, gap := line[..d], tail[..Spaces(tail)];
    forall i | k <= i < d ensures '0' <= front[i] <= '9' { assert front[i] == line[k..][i - k]; }
  }

  lemma QuoteKeepsText(line: string) returns (gap: string)
    requires QuoteLine(line)
    ensures line == ">" + gap + QuoteText(line) && |gap| <= 1 && AllSpace(gap)
    ensures gap == "" && QuoteText(line) != "" ==> !IsSpace(QuoteText(line)[0])
  {
    gap := if |line| >= 2 && IsSpace(line[1]) then line[1..2] else "";
    assert line == line[..1] + line[1..];
  }

  /** A heading's level is the length of its marker, and its text the rest without the gap. */
  lemma HeadingKeepsText(line: string) returns (marks: string, gap: string)
    requires HeadingPrefix(line)
    ensures line == marks + gap + HeadingText(line) && AllOf(marks, '#') && |marks| == RunOf(line, '#') && 1 <= |marks| <= 6
    ensures gap != "" && AllSpace(gap) && (HeadingText(line) != "" ==> !IsSpace(HeadingText(line)[0]))
  {
    hide IsSpace, Spaces, AllSpace;
    var h := RunOf(line, '#');
    var tail := line[h..];
    SpacesSplit(tail);
    marks, gap := line[..h], tail[..Spaces(tail)];
    Cut2(line, h, Spaces(tail));
  }

  lemma Cut2(line: string, h: nat, n: nat)
    requires h + n <= |line|
    ensures line == line[..h] + line[h..][..n] + line[h + n..] && line[h..][n..] == line[h + n..]
  {
  }

  // ----- table rows ----------------------------------------------------------------

  function Pad(cells: seq<string>): seq<string> { seq(|cells|, n requires 0 <= n < |cells| => " " + cells[n] + " ") }

  /** A row printed the usual way. */
  function PrintRow(cells: seq<string>): string
    requires cells != []
  {
    "|" + Join(Pad(cells), '|') + "|"
  }

  /** Splitting a printed row gives its cells back, for trimmed cells without a pipe. */
  lemma CellsOfPrintedRow(cells: seq<string>)
    requires cells != [] && forall i :: 0 <= i < |cells| ==> Trimmed(cells[i]) && Free(cells[i], '|')
    ensures Cells(PrintRow(cells)) == cells
  {
    var padded := Pad(cells);
    PaddedFree(cells);
    JoinSplits(padded, '|');
    CellsOfRow(Join(padded, '|'));
    assert |padded| == |cells|;
    hide Cells, Split, Join, PrintRow, Trimmed, Free, Trim;
    forall i | 0 <= i < |cells| ensures Trim(padded[i]) == cells[i] {
      TrimUnpads(" ", cells[i], " ");
    }
  }

  lemma PaddedFree(cells: seq<string>)
    requires forall i :: 0 <= i < |cells| ==> Free(cells[i], '|')
    ensures AllFree(Pad(cells), '|')
  {
  }

  lemma CellsOfRow(inner: string)
    ensures |Cells("|" + inner + "|")| == |Split(inner, '|')|
    ensures forall i :: 0 <= i < |Split(inner, '|')| ==> Cells("|" + inner + "|")[i] == Trim(Split(inner, '|')[i])
  {
    hide Split, Trim;
    var row := "|" + inner + "|";
    assert Trim(row) == row by {
      TrimUnpads("", row, "");
      assert "" + row + "" == row;
    }
    assert row[1..] == inner + "|";
    assert row[1..][..|row[1..]| - 1] == inner;
  }

  function Dashes(n: nat): string { seq(n, i => '-') }

  lemma ColonFront(c: string)
    requires c != "" && c[0] == ':'
    ensures c == ":" + c[1..]
  {
  }

  lemma ColonBack(c: string)
    requires c != "" && c[|c| - 1] == ':'
    ensures c == c[..|c| - 1] + ":"
  {
  }

  lemma DashCellParts(c: string) returns (a: string, b: string, n: nat)
    requires DashCell(c)
    ensures a in {"", ":"} && b in {"", ":"} && n >= 1 && c == a + Dashes(n) + b
  {
    a, b := "", "";
    var r, m := c, c;
    if c[0] == ':' {
      ColonFront(c);
      a, r := ":", c[1..];
    }
    m := r;
    if r[|r| - 1] == ':' {
      ColonBack(r);
      b, m := ":", r[..|r| - 1];
    }
    n := |m|;
    assert m == Dashes(n);
    Ends(a, m, b, r, c);
  }

  lemma Ends(a: string, m: string, b: string, r: string, c: string)
    requires c == (if a == "" then r else a + r) && r == (if b == "" then m else m + b)
    ensures c == a + m + b
  {
    assert "" + r == r && m + "" == m;
    assert a + (m + b) == a + m + b;
  }

  /** A separator cell: dashes, with a colon allowed at either end. */
  lemma DashCellIff(c: string)
    ensures DashCell(c) <==>
            exists a, b, n :: a in {"", ":"} && b in {"", ":"} && n >= 1 && c == a + Dashes(n) + b
  {
    hide DashCell, Dashes;
    if DashCell(c) {
      var a, b, n := DashCellParts(c);
    }
    forall a, b, n | a in {"", ":"} && b in {"", ":"} && n >= 1 && c == a + Dashes(n) + b ensures DashCell(c) {
      CellOfDashes(a, b, n);
    }
  }

  lemma CellOfDashes(a: string, b: string, n: nat)
    requires a in {"", ":"} && b in {"", ":"} && n >= 1
    ensures DashCell(a + Dashes(n) + b)
  {
    var c := a + Dashes(n) + b;
    var r := if c[0] == ':' then c[1..] else c;
    assert r == Dashes(n) + b;
    assert (if r[|r| - 1] == ':' then r[..|r| - 1] else r) == Dashes(n);
  }

  lemma RowHolds(cells: seq<string>, c: char)
    requires cells != [] && c in cells[0] && c != '|'
    ensures c in PrintRow(cells) && '|' in PrintRow(cells)
  {
    var padded := Pad(cells);
    var k :| 0 <= k < |cells[0]| && cells[0][k] == c;
    assert padded[0][k + 1] == c;
    JoinFree(padded, '|', c);
    var inner := Join(padded, '|');
    assert !Free(inner, c);
    var j :| 0 <= j < |inner| && inner[j] == c;
    assert PrintRow(cells)[j + 1] == c && PrintRow(cells)[0] == '|';
  }

  /** A printed row of separator cells makes the line above it a table header. */
  lemma PrintedSeparator(cells: seq<string>)
    requires cells != [] && forall i :: 0 <= i < |cells| ==> DashCell(cells[i])
    ensures SeparatorLine(PrintRow(cells))
  {
    hide DashCell, Cells, PrintRow, Free, Trimmed;
    forall i | 0 <= i < |cells| ensures Trimmed(cells[i]) && Free(cells[i], '|') && '-' in cells[i] {
      DashCellIsClean(cells[i]);
    }
    CellsOfPrintedRow(cells);
    RowHolds(cells, '-');
  }

  lemma DashCellIsClean(c: string)
    requires DashCell(c)
    ensures Trimmed(c) && Free(c, '|') && '-' in c
  {
    var a, b, n := DashCellParts(c);
    assert c[|a|] == '-';
    assert forall i :: 0 <= i < |c| ==> c[i] == '-' || c[i] == ':';
  }
}
