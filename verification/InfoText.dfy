/** Parsing the info protocol's text: `key=value` pairs and records of them. */
module InfoText {
  import opened Prelude
  import opened PyText
  import opened Splitting
  import PyInt

  type Pairs = map<string, string>

  function Look<V>(m: map<string, V>, k: string): Option<V> { if k in m then Some(m[k]) else None }

  /** A dictionary: its entries, and its keys in the order they were first assigned. */
  datatype Dict<V> = Dict(items: map<string, V>, order: seq<string>)

  function Assign<V>(d: Dict<V>, k: string, v: V): Dict<V> { Dict(d.items[k := v], Noted(d.order, k)) }

  function Noted(order: seq<string>, k: string): seq<string> { if k in order then order else order + [k] }

  /** The names, each once, where it first stands. */
  function Once(names: seq<string>): seq<string> {
    if names == [] then [] else Noted(Once(names[..|names| - 1]), names[|names| - 1])
  }

  lemma OnceSnoc(names: seq<string>, k: string)
    ensures Once(names + [k]) == Noted(Once(names), k)
  {
    assert (names + [k])[..|names|] == names;
  }

  lemma {:induction false} OnceSame(names: seq<string>)
    ensures Distinct(Once(names))
    ensures forall k :: k in Once(names) <==> k in names
  {
    if names != [] {
      var n := |names| - 1;
      OnceSame(names[..n]);
      assert names == names[..n] + [names[n]];
    }
  }

  /** A name listed before another stands somewhere before the other ever does. */
  lemma {:induction false} OnceByFirst(names: seq<string>, i: nat, j: nat) returns (p: nat)
    requires i < j < |Once(names)|
    ensures p < |names| && names[p] == Once(names)[i] && Once(names)[j] !in names[..p + 1]
  {
    var n := |names| - 1;
    var front := names[..n];
    OnceSame(front);
    OnceSame(names);
    if j < |Once(front)| {
      p := OnceByFirst(front, i, j);
      assert names[..p + 1] == front[..p + 1];
    } else {
      assert Once(names)[i] in front;
      p :| 0 <= p < n && front[p] == Once(names)[i];
      assert forall x :: x in names[..p + 1] ==> x in front;
    }
  }

  /** The pair in a part, if it holds a `=`. */
  function PairOf(part: string): Option<(string, string)> {
    var k := Head(part, '=');
    if '=' in part && |k| < |part| then Some((Strip(k), Strip(part[|k| + 1..]))) else None
  }

  /** What the parts assign to a key: the last part naming it. */
  function ValueIn(parts: seq<string>, k: string): Option<string> {
    if parts == [] then None
    else
      var p := PairOf(parts[|parts| - 1]);
      if p.Some? && p.value.0 == k then Some(p.value.1) else ValueIn(parts[..|parts| - 1], k)
  }

  /** The names of the pairs, in the order of the parts. */
  function NamesIn(parts: seq<string>): seq<string> {
    if parts == [] then []
    else
      var front, p := NamesIn(parts[..|parts| - 1]), PairOf(parts[|parts| - 1]);
      if p.Some? then front + [p.value.0] else front
  }

  lemma {:induction false} ValueInNames(parts: seq<string>, k: string)
    ensures ValueIn(parts, k).Some? <==> k in NamesIn(parts)
  {
    hide PairOf;
    if parts != [] {
      ValueInNames(parts[..|parts| - 1], k);
    }
  }

  function PairsIn(parts: seq<string>): (m: Pairs)
    ensures forall k :: Look(m, k) == ValueIn(parts, k)
  {
    assert forall k :: ValueIn(parts, k).Some? <==> k in NamesIn(parts) by {
      forall k ensures ValueIn(parts, k).Some? <==> k in NamesIn(parts) { ValueInNames(parts, k); }
    }
    map k | k in NamesIn(parts) :: ValueIn(parts, k).value
  }

  function PairParts(response: string, sep: char): seq<string> {
    if response == "" then [] else Split(Strip(response), sep)
  }

  function KvOf(response: string, sep: char): Pairs { PairsIn(PairParts(response, sep)) }

  /** The names assigned, in order; a repeated one stands again. */
  function NamesOf(response: string, sep: char): seq<string> { NamesIn(PairParts(response, sep)) }

  lemma NamesHaveValue(response: string, sep: char, k: string)
    ensures k in NamesOf(response, sep) <==> k in KvOf(response, sep)
  {
    ValueInNames(PairParts(response, sep), k);
    hide ValueIn, NamesIn;
    assert Look(KvOf(response, sep), k) == ValueIn(PairParts(response, sep), k);
  }

  ghost predicate Assigned(result: Pairs, parts: seq<string>, i: nat)
    requires i <= |parts|
  {
    forall k :: Look(result, k) == ValueIn(parts[..i], k)
  }

  lemma PartStep(result: Pairs, parts: seq<string>, i: nat)
    requires i < |parts| && Assigned(result, parts, i)
    ensures var p := PairOf(parts[i]);
            Assigned(if p.Some? then result[p.value.0 := p.value.1] else result, parts, i + 1)
  {
    hide PairOf;
    var p := PairOf(parts[i]);
    var result' := if p.Some? then result[p.value.0 := p.value.1] else result;
    assert parts[..i + 1][..i] == parts[..i] && parts[..i + 1][i] == parts[i];
    forall k ensures Look(result', k) == ValueIn(parts[..i + 1], k) {
      assert Look(result, k) == ValueIn(parts[..i], k);
    }
  }

  lemma PairOfEquals(part: string)
    ensures '=' in part <==> PairOf(part).Some?
    ensures '=' in part ==>
              |Head(part, '=')| < |part|
              && PairOf(part).value == (Strip(Head(part, '=')), Strip(part[|Head(part, '=')| + 1..]))
  {
    HeadCuts(part, '=');
  }

  lemma AllAssigned(result: Pairs, parts: seq<string>)
    requires Assigned(result, parts, |parts|)
    ensures result == PairsIn(parts)
  {
    hide ValueIn;
    assert parts[..|parts|] == parts;
    SameLooks(result, PairsIn(parts));
  }

  lemma NameStep(order: seq<string>, parts: seq<string>, i: nat)
    requires i < |parts| && order == Once(NamesIn(parts[..i]))
    ensures var p := PairOf(parts[i]); Once(NamesIn(parts[..i + 1])) == if p.Some? then Noted(order, p.value.0) else order
  {
    hide PairOf;
    assert parts[..i + 1][..i] == parts[..i] && parts[..i + 1][i] == parts[i];
    if PairOf(parts[i]).Some? {
      OnceSnoc(NamesIn(parts[..i]), PairOf(parts[i]).value.0);
    }
  }

  /** `parse_kv_pairs`: the last part naming a key wins, the first one places it. */
  method ParseKvPairs(response: string, sep: char) returns (result: Dict<string>)
    ensures result == Dict(KvOf(response, sep), Once(NamesOf(response, sep)))
  {
    hide PairOf, Strip, Split, Head, PairsIn, Assigned, ValueIn, Once, Noted;
    result := Dict(map[], []);
    if response == "" {
      NothingAssigned([]);
      AllAssigned(result.items, []);
      return;
    }
    var parts := Split(Strip(response), sep);
    var i := 0;
    NothingAssigned(parts);
    while i < |parts|
      invariant i <= |parts| && Assigned(result.items, parts, i) && result.order == Once(NamesIn(parts[..i]))
    {
      var part := parts[i];
      PartStep(result.items, parts, i);
      NameStep(result.order, parts, i);
      PairOfEquals(part);
      if '=' in part {
        var k := Head(part, '=');
        result := Assign(result, Strip(k), Strip(part[|k| + 1..]));
      }
      i := i + 1;
    }
    assert parts[..i] == parts;
    AllAssigned(result.items, parts);
  }

  lemma NothingAssigned(parts: seq<string>)
    ensures Assigned(map[], parts, 0) && Once(NamesIn([])) == []
  {
  }

  lemma SameLooks<V>(a: map<string, V>, b: map<string, V>)
    requires forall k :: Look(a, k) == Look(b, k)
    ensures a == b
  {
    assert forall k :: k in a <==> Look(a, k).Some?;
    assert forall k :: k in b <==> Look(b, k).Some?;
    assert forall k :: k in a ==> Look(a, k) == Some(a[k]);
    assert forall k :: k in b ==> Look(b, k) == Some(b[k]);
  }

  // ----- records ---------------------------------------------------------------

  function RecordOf(text: string, fieldSep: char): Pairs { PairsIn(Split(Strip(text), fieldSep)) }

  function RecordsIn(texts: seq<string>, fieldSep: char): seq<Pairs> {
    if texts == [] then []
    else
      var front, last := RecordsIn(texts[..|texts| - 1], fieldSep), texts[|texts| - 1];
      if Strip(last) == "" || RecordOf(last, fieldSep) == map[] then front else front + [RecordOf(last, fieldSep)]
  }

  function RecordsOf(response: string, recordSep: char, fieldSep: char): seq<Pairs> {
    if Strip(response) == "" then [] else RecordsIn(Split(Strip(response), recordSep), fieldSep)
  }

  method ParseFields(fields: seq<string>) returns (record: Pairs)
    ensures record == PairsIn(fields)
  {
    hide PairOf, Strip, Split, Head, PairsIn, Assigned, ValueIn;
    record := map[];
    var i := 0;
    NothingAssigned(fields);
    while i < |fields|
      invariant i <= |fields| && Assigned(record, fields, i)
    {
      var field := fields[i];
      PartStep(record, fields, i);
      PairOfEquals(field);
      if '=' in field {
        var k := Head(field, '=');
        record := record[Strip(k) := Strip(field[|k| + 1..])];
      }
      i := i + 1;
    }
    AllAssigned(record, fields);
  }

  lemma NothingToStrip()
    ensures Strip("") == ""
  {
  }

  /** `parse_records` */
  method ParseRecords(response: string, recordSep: char, fieldSep: char) returns (records: seq<Pairs>)
    ensures records == RecordsOf(response, recordSep, fieldSep)
  {
    hide Strip, Split, PairsIn;
    records := [];
    NothingToStrip();
    if response == "" || Strip(response) == "" {
      return;
    }
    var texts := Split(Strip(response), recordSep);
    var i := 0;
    while i < |texts|
      invariant i <= |texts| && records == RecordsIn(texts[..i], fieldSep)
    {
      var text := texts[i];
      assert texts[..i + 1][..i] == texts[..i];
      i := i + 1;
      if Strip(text) == "" {
        continue;
      }
      var record := ParseFields(Split(Strip(text), fieldSep));
      if record != map[] {
        records := records + [record];
      }
    }
    assert texts[..i] == texts;
  }

  // ----- printing and reading back -----------------------------------------------

  type PairList = seq<(string, string)>

  function PrintPair(p: (string, string)): string { p.0 + "=" + p.1 }

  function PrintParts(ps: PairList): seq<string> { seq(|ps|, i requires 0 <= i < |ps| => PrintPair(ps[i])) }

  function PrintPairs(ps: PairList, sep: char): string { if ps == [] then "" else Join(PrintParts(ps), sep) }

  /** Nothing the parser would strip or split inside a key or a value. */
  predicate Clean(p: (string, string), sep: char) {
    Trim(p.0) && Trim(p.1) && Free(p.0, '=') && Free(p.0, sep) && Free(p.1, sep)
  }

  predicate AllClean(ps: PairList, sep: char) { sep != '=' && !IsSpace(sep) && forall i :: 0 <= i < |ps| ==> Clean(ps[i], sep) }

  predicate KeysDistinct(ps: PairList) { forall i, j :: 0 <= i < j < |ps| ==> ps[i].0 != ps[j].0 }

  lemma PairOfPrinted(p: (string, string), sep: char)
    requires Clean(p, sep) && sep != '='
    ensures PairOf(PrintPair(p)) == Some(p) && Free(PrintPair(p), sep) && Trim(PrintPair(p)) && PrintPair(p) != ""
  {
    hide Strip, IsSpace;
    var part := PrintPair(p);
    HeadOf(p.0, '=', p.1);
    assert part == p.0 + ['='] + p.1 && part[|p.0|] == '=';
    assert part[|p.0| + 1..] == p.1;
    TrimStrips(p.0);
    TrimStrips(p.1);
    assert Trim(part) by { EqualsKeepsTrim(p); }
  }

  lemma EqualsKeepsTrim(p: (string, string))
    requires Trim(p.0) && Trim(p.1)
    ensures Trim(PrintPair(p))
  {
  }

  lemma {:induction false} JoinTrims(parts: seq<string>, sep: char)
    requires parts != [] && !IsSpace(sep) && forall i :: 0 <= i < |parts| ==> parts[i] != "" && Trim(parts[i])
    ensures Trim(Join(parts, sep)) && Join(parts, sep) != ""
  {
    hide IsSpace;
    if |parts| > 1 {
      JoinTrims(parts[1..], sep);
      var a, b := parts[0], Join(parts[1..], sep);
      var s := a + [sep] + b;
      assert s[0] == a[0] && s[|s| - 1] == b[|b| - 1];
    }
  }

  lemma PrintedSplits(ps: PairList, sep: char)
    requires ps != [] && AllClean(ps, sep)
    ensures Strip(PrintPairs(ps, sep)) == PrintPairs(ps, sep) != "" && Split(PrintPairs(ps, sep), sep) == PrintParts(ps)
  {
    hide Clean, Split, Strip, Join, PrintPair;
    var parts := PrintParts(ps);
    forall i | 0 <= i < |parts| ensures Free(parts[i], sep) && parts[i] != "" && Trim(parts[i]) {
      PairOfPrinted(ps[i], sep);
    }
    JoinTrims(parts, sep);
    TrimStrips(Join(parts, sep));
    JoinSplits(parts, sep);
  }

  function ListValue(ps: PairList, k: string): Option<string> {
    if ps == [] then None
    else if ps[|ps| - 1].0 == k then Some(ps[|ps| - 1].1)
    else ListValue(ps[..|ps| - 1], k)
  }

  lemma {:induction false} ValueInPrinted(ps: PairList, sep: char, k: string)
    requires AllClean(ps, sep)
    ensures ValueIn(PrintParts(ps), k) == ListValue(ps, k)
  {
    hide Clean, PairOf, PrintPair;
    if ps != [] {
      var n := |ps| - 1;
      PairOfPrinted(ps[n], sep);
      assert PrintParts(ps)[..n] == PrintParts(ps[..n]);
      ValueInPrinted(ps[..n], sep, k);
    }
  }

  /** Reading a printed list of clean pairs gives the pairs; a repeated key keeps its last value. */
  lemma KvRoundTrip(ps: PairList, sep: char, k: string)
    requires AllClean(ps, sep) && ps != []
    ensures Look(KvOf(PrintPairs(ps, sep), sep), k) == ListValue(ps, k)
  {
    hide Clean, Split, Strip, PrintPair;
    PrintedSplits(ps, sep);
    ValueInPrinted(ps, sep, k);
  }

  lemma {:induction false} ListValueDistinct(ps: PairList, i: nat)
    requires KeysDistinct(ps) && i < |ps|
    ensures ListValue(ps, ps[i].0) == Some(ps[i].1)
  {
    if i < |ps| - 1 {
      ListValueDistinct(ps[..|ps| - 1], i);
    }
  }

  function PrintRecords(rs: seq<PairList>, recordSep: char, fieldSep: char): string
    requires rs != []
  {
    Join(RecordTexts(rs, fieldSep), recordSep)
  }

  function RecordTexts(rs: seq<PairList>, fieldSep: char): seq<string> {
    seq(|rs|, i requires 0 <= i < |rs| => PrintPairs(rs[i], fieldSep))
  }

  /** A printable record: clean for both separators. */
  predicate CleanRecord(ps: PairList, recordSep: char, fieldSep: char) {
    ps != [] && AllClean(ps, fieldSep) && AllClean(ps, recordSep) && recordSep != fieldSep
  }

  lemma RecordTextFacts(ps: PairList, recordSep: char, fieldSep: char)
    requires CleanRecord(ps, recordSep, fieldSep)
    ensures var t := PrintPairs(ps, fieldSep);
            Free(t, recordSep) && t != "" && Strip(t) == t && Trim(t) && Split(t, fieldSep) == PrintParts(ps)
  {
    hide Clean, Split, Join, PrintPair, Strip;
    PrintedSplits(ps, fieldSep);
    StripTrims(PrintPairs(ps, fieldSep));
    var parts := PrintParts(ps);
    forall i | 0 <= i < |parts| ensures Free(parts[i], recordSep) { PairOfPrinted(ps[i], recordSep); }
    JoinFree(parts, fieldSep, recordSep);
  }

  lemma {:induction false} RecordsInPrinted(rs: seq<PairList>, recordSep: char, fieldSep: char)
    requires forall i :: 0 <= i < |rs| ==> CleanRecord(rs[i], recordSep, fieldSep)
    ensures RecordsIn(RecordTexts(rs, fieldSep), fieldSep) == seq(|rs|, i requires 0 <= i < |rs| => PairsIn(PrintParts(rs[i])))
  {
    hide CleanRecord, PrintPairs, Strip, Split, PrintParts;
    if rs != [] {
      var n := |rs| - 1;
      RecordTextFacts(rs[n], recordSep, fieldSep);
      RecordsInPrinted(rs[..n], recordSep, fieldSep);
      assert RecordTexts(rs, fieldSep)[..n] == RecordTexts(rs[..n], fieldSep);
      FirstNamed(rs[n], recordSep, fieldSep);
    }
  }

  lemma FirstNamed(ps: PairList, recordSep: char, fieldSep: char)
    requires CleanRecord(ps, recordSep, fieldSep)
    ensures PairsIn(PrintParts(ps)) != map[]
  {
    hide Clean, PairsIn;
    var m, k := PairsIn(PrintParts(ps)), ps[|ps| - 1].0;
    ValueInPrinted(ps, fieldSep, k);
    assert Look(m, k).Some?;
  }

  /** Reading printed records gives them back, in order. */
  lemma RecordsRoundTrip(rs: seq<PairList>, recordSep: char, fieldSep: char, i: nat, k: string)
    requires i < |rs| && forall j :: 0 <= j < |rs| ==> CleanRecord(rs[j], recordSep, fieldSep)
    ensures |RecordsOf(PrintRecords(rs, recordSep, fieldSep), recordSep, fieldSep)| == |rs|
    ensures Look(RecordsOf(PrintRecords(rs, recordSep, fieldSep), recordSep, fieldSep)[i], k) == ListValue(rs[i], k)
  {
    RecordSepFacts(rs[i], recordSep, fieldSep);
    ValueInPrinted(rs[i], fieldSep, k);
    hide AllClean, Strip, Split, Join, PrintPairs, PrintParts;
    var texts := RecordTexts(rs, fieldSep);
    forall j | 0 <= j < |texts| ensures Free(texts[j], recordSep) && texts[j] != "" && Trim(texts[j]) {
      RecordTextFacts(rs[j], recordSep, fieldSep);
    }
    JoinTrims(texts, recordSep);
    TrimStrips(Join(texts, recordSep));
    JoinSplits(texts, recordSep);
    RecordsInPrinted(rs, recordSep, fieldSep);
  }

  lemma RecordSepFacts(ps: PairList, recordSep: char, fieldSep: char)
    requires CleanRecord(ps, recordSep, fieldSep)
    ensures !IsSpace(recordSep) && AllClean(ps, fieldSep)
  {
  }

  /** `safe_int`, for a text or a missing one. */
  function SafeInt(d: PyInt.DigitTable, value: Option<string>): int {
    match value
    case None => 0
    case Some(s) => match PyInt.Parse(d, s) case Some(n) => n case None => 0
  }

  /** A printed integer is read as itself; what is missing or no integer counts as zero. */
  lemma SafeIntReads(d: PyInt.DigitTable, s: string, n: int)
    requires PyInt.IsTable(d)
    ensures SafeInt(d, None) == 0
    ensures PyInt.Parse(d, s).None? ==> SafeInt(d, Some(s)) == 0
    ensures PyInt.Parse(d, s) == Some(n) ==> SafeInt(d, Some(s)) == n
    ensures PyInt.Printable(n) ==> SafeInt(d, Some(PyInt.Show(n))) == n
  {
    hide PyInt.Parse, PyInt.Show, PyInt.Printable;
    if PyInt.Printable(n) {
      PyInt.ParseOfShow(d, n);
    }
  }
}
