/** Set statistics over all nodes, with the replicas of a record counted once. */
module SetAggregate {
  import opened Prelude
  import opened InfoText
  import opened InfoAggregate
  import opened PyInt

  datatype Entry = Entry(objects: int, tombstones: int, memoryDataBytes: int, stopWritesCount: int, nodeCount: nat)

  /** `rec.get("set", rec.get("set_name", ""))` */
  function NameOf(rec: Pairs): string {
    if "set" in rec then rec["set"] else if "set_name" in rec then rec["set_name"] else ""
  }

  function StopWritesOf(rec: Pairs): Option<string> {
    if "stop-writes-count" in rec then Some(rec["stop-writes-count"]) else Look(rec, "stop_writes_count")
  }

  function Max(a: int, b: int): int { if a >= b then a else b }

  function Plus(d: DigitTable, e: Entry, rec: Pairs): Entry {
    Entry(e.objects + SafeInt(d, Look(rec, "objects")),
          e.tombstones + SafeInt(d, Look(rec, "tombstones")),
          e.memoryDataBytes + SafeInt(d, Look(rec, "memory_data_bytes")),
          Max(e.stopWritesCount, SafeInt(d, StopWritesOf(rec))),
          e.nodeCount + 1)
  }

  const EMPTY := Entry(0, 0, 0, 0, 0)

  /** One record's effect on the entry of one set; a record without a name counts nowhere. */
  function Counted(d: DigitTable, e: Option<Entry>, rec: Pairs, name: string): Option<Entry> {
    if NameOf(rec) != name || name == "" then e else Some(Plus(d, if e.Some? then e.value else EMPTY, rec))
  }

  function EntryAt(d: DigitTable, recs: seq<Pairs>, name: string): Option<Entry> {
    if recs == [] then None else Counted(d, EntryAt(d, recs[..|recs| - 1], name), recs[|recs| - 1], name)
  }

  /** The names that count, record by record. */
  function NamesOfRecords(recs: seq<Pairs>): seq<string> {
    if recs == [] then []
    else
      var front, name := NamesOfRecords(recs[..|recs| - 1]), NameOf(recs[|recs| - 1]);
      if name == "" then front else front + [name]
  }

  /** The names that count, in the order they are first seen. */
  function FirstSeen(recs: seq<Pairs>): seq<string> { Once(NamesOfRecords(recs)) }

  /** All records of all answers, in order. */
  function AllRecords(texts: seq<string>): seq<Pairs> {
    if texts == [] then [] else AllRecords(texts[..|texts| - 1]) + RecordsOf(texts[|texts| - 1], ';', ':')
  }

  function EffectiveRf(rf: int, responding: nat): int {
    if responding == 0 then 1 else if rf < responding then rf else responding
  }

  /** A positive factor divides objects and tombstones, rounding down; any other leaves them. */
  function Deduplicated(e: Entry, factor: int): Entry {
    if factor > 0 then e.(objects := e.objects / factor, tombstones := e.tombstones / factor) else e
  }

  /** What is reported for one set. */
  function SetAt(d: DigitTable, nodes: seq<Node>, rf: int, name: string): Option<Entry> {
    var texts := Answers(nodes);
    match EntryAt(d, AllRecords(texts), name)
    case Some(e) => Some(Deduplicated(e, EffectiveRf(rf, |texts|)))
    case None => None
  }

  lemma RecordsSnoc(d: DigitTable, recs: seq<Pairs>, rec: Pairs, name: string)
    ensures EntryAt(d, recs + [rec], name) == Counted(d, EntryAt(d, recs, name), rec, name)
  {
    assert (recs + [rec])[..|recs|] == recs;
  }

  /** The dictionary of entries and the order of its keys. */
  ghost predicate Tallied(d: DigitTable, recs: seq<Pairs>, setData: map<string, Entry>, order: seq<string>) {
    order == FirstSeen(recs) && forall name :: Look(setData, name) == EntryAt(d, recs, name)
  }

  lemma FirstSeenSnoc(recs: seq<Pairs>, rec: Pairs)
    ensures FirstSeen(recs + [rec])
            == if NameOf(rec) == "" then FirstSeen(recs) else Noted(FirstSeen(recs), NameOf(rec))
  {
    assert (recs + [rec])[..|recs|] == recs;
    OnceSnoc(NamesOfRecords(recs), NameOf(rec));
    hide Once, Noted;
  }

  lemma {:induction false} NamedHasEntry(d: DigitTable, recs: seq<Pairs>, name: string)
    ensures name in NamesOfRecords(recs) <==> EntryAt(d, recs, name).Some?
  {
    hide Plus;
    if recs != [] {
      NamedHasEntry(d, recs[..|recs| - 1], name);
    }
  }

  /** The listed names are those with an entry, each once. */
  lemma FirstSeenHasEntry(d: DigitTable, recs: seq<Pairs>, name: string)
    ensures name in FirstSeen(recs) <==> EntryAt(d, recs, name).Some?
    ensures Distinct(FirstSeen(recs))
  {
    hide EntryAt, Once;
    OnceSame(NamesOfRecords(recs));
    NamedHasEntry(d, recs, name);
  }

  /** One record: the entry is created on first sight, then updated. */
  method TallyRecord(d: DigitTable, ghost recs: seq<Pairs>, rec: Pairs, setData: map<string, Entry>, order: seq<string>)
    returns (setData': map<string, Entry>, order': seq<string>)
    requires Tallied(d, recs, setData, order)
    ensures Tallied(d, recs + [rec], setData', order')
  {
    hide SafeInt, EntryAt, Max, FirstSeen;
    setData', order' := setData, order;
    var setName := NameOf(rec);
    FirstSeenSnoc(recs, rec);
    FirstSeenHasEntry(d, recs, setName);
    assert Look(setData, setName) == EntryAt(d, recs, setName);
    if setName != "" {
      if setName !in setData' {
        setData', order' := setData'[setName := Entry(0, 0, 0, 0, 0)], order' + [setName];
      }
      var entry := setData'[setName];
      entry := entry.(objects := entry.objects + SafeInt(d, Look(rec, "objects")));
      entry := entry.(tombstones := entry.tombstones + SafeInt(d, Look(rec, "tombstones")));
      entry := entry.(memoryDataBytes := entry.memoryDataBytes + SafeInt(d, Look(rec, "memory_data_bytes")));
      entry := entry.(stopWritesCount := Max(entry.stopWritesCount, SafeInt(d, StopWritesOf(rec))));
      entry := entry.(nodeCount := entry.nodeCount + 1);
      setData' := setData'[setName := entry];
    }
    forall name ensures Look(setData', name) == EntryAt(d, recs + [rec], name) {
      RecordsSnoc(d, recs, rec, name);
      assert Look(setData, name) == EntryAt(d, recs, name);
    }
  }

  method TallyAnswer(d: DigitTable, ghost before: seq<Pairs>, text: string, setData0: map<string, Entry>, order0: seq<string>)
    returns (setData: map<string, Entry>, order: seq<string>)
    requires Tallied(d, before, setData0, order0)
    ensures Tallied(d, before + RecordsOf(text, ';', ':'), setData, order)
  {
    hide Tallied, RecordsOf;
    var recs := ParseRecords(text, ';', ':');
    setData, order := setData0, order0;
    var j := 0;
    assert before + recs[..0] == before;
    while j < |recs|
      invariant j <= |recs| && Tallied(d, before + recs[..j], setData, order)
    {
      setData, order := TallyRecord(d, before + recs[..j], recs[j], setData, order);
      assert before + recs[..j] + [recs[j]] == before + recs[..j + 1];
      j := j + 1;
    }
    assert recs[..j] == recs;
  }

  datatype Listed = Listed(name: string, entry: Entry)

  /** `aggregate_set_records`: one listed entry a set, in the order the sets are first seen. */
  method AggregateSetRecords(d: DigitTable, nodes: seq<Node>, replicationFactor: int) returns (result: seq<Listed>)
    ensures |result| == |FirstSeen(AllRecords(Answers(nodes)))|
    ensures forall i :: 0 <= i < |result| ==>
              && result[i].name == FirstSeen(AllRecords(Answers(nodes)))[i]
              && SetAt(d, nodes, replicationFactor, result[i].name) == Some(result[i].entry)
  {
    hide Tallied, AllRecords, EntryAt, FirstSeen;
    var setData: map<string, Entry>, order: seq<string> := map[], [];
    var respondingNodes := 0;
    NothingTallied(d);
    var i := 0;
    while i < |nodes|
      invariant i <= |nodes| && respondingNodes == |Answers(nodes[..i])|
      invariant Tallied(d, AllRecords(Answers(nodes[..i])), setData, order)
    {
      AnswersSnoc(nodes, i);
      if !Failed(nodes[i]) {
        respondingNodes := respondingNodes + 1;
        AllRecordsSnoc(Answers(nodes[..i]), nodes[i].resp);
        setData, order := TallyAnswer(d, AllRecords(Answers(nodes[..i])), nodes[i].resp, setData, order);
      }
      i := i + 1;
    }
    assert nodes[..i] == nodes;
    var effectiveRf := EffectiveRf(replicationFactor, respondingNodes);
    result := [];
    ghost var recs := AllRecords(Answers(nodes));
    TalliedOrder(d, recs, setData, order);
    for j := 0 to |order|
      invariant |result| == j
      invariant forall n :: 0 <= n < j ==>
                  result[n].name == order[n] && SetAt(d, nodes, replicationFactor, order[n]) == Some(result[n].entry)
    {
      TalliedAt(d, recs, setData, order, order[j]);
      result := result + [Listed(order[j], Deduplicated(setData[order[j]], effectiveRf))];
    }
  }

  lemma TalliedOrder(d: DigitTable, recs: seq<Pairs>, setData: map<string, Entry>, order: seq<string>)
    requires Tallied(d, recs, setData, order)
    ensures order == FirstSeen(recs)
  {
  }

  lemma TalliedAt(d: DigitTable, recs: seq<Pairs>, setData: map<string, Entry>, order: seq<string>, name: string)
    requires Tallied(d, recs, setData, order)
    ensures Look(setData, name) == EntryAt(d, recs, name) && (name in order <==> name in setData)
  {
    FirstSeenHasEntry(d, recs, name);
    hide FirstSeen, EntryAt;
  }

  lemma NothingTallied(d: DigitTable)
    ensures Answers([]) == [] && AllRecords([]) == [] && Tallied(d, [], map[], [])
  {
  }

  lemma AllRecordsSnoc(texts: seq<string>, text: string)
    ensures AllRecords(texts + [text]) == AllRecords(texts) + RecordsOf(text, ';', ':')
  {
    assert (texts + [text])[..|texts|] == texts;
  }

  // ----- independence of the order ------------------------------------------------------

  lemma CountedCommutes(d: DigitTable, e: Option<Entry>, a: Pairs, b: Pairs, name: string)
    ensures Counted(d, Counted(d, e, a, name), b, name) == Counted(d, Counted(d, e, b, name), a, name)
  {
    hide SafeInt, Look;
  }

  lemma {:induction false} EntryWithout(d: DigitTable, recs: seq<Pairs>, name: string, i: nat)
    requires i < |recs|
    ensures EntryAt(d, recs, name) == Counted(d, EntryAt(d, recs[..i] + recs[i + 1..], name), recs[i], name)
  {
    hide Counted;
    var n := |recs| - 1;
    var rest := recs[..i] + recs[i + 1..];
    if i < n {
      EntryWithout(d, recs[..n], name, i);
      assert recs[..n][..i] + recs[..n][i + 1..] == rest[..|rest| - 1];
      assert rest[|rest| - 1] == recs[n];
      CountedCommutes(d, EntryAt(d, rest[..|rest| - 1], name), recs[i], recs[n], name);
    } else {
      assert rest == recs[..n];
    }
  }

  lemma {:induction false} EntryPermutes(d: DigitTable, a: seq<Pairs>, b: seq<Pairs>, name: string)
    requires multiset(a) == multiset(b)
    ensures EntryAt(d, a, name) == EntryAt(d, b, name)
  {
    hide Counted;
    SameSize(a, b);
    if a != [] {
      var i := Matching(a, b);
      EntryPermutes(d, a[..|a| - 1], b[..i] + b[i + 1..], name);
      EntryWithout(d, b, name, i);
    }
  }

  lemma {:induction false} AllRecordsConcat(a: seq<string>, b: seq<string>)
    ensures AllRecords(a + b) == AllRecords(a) + AllRecords(b)
  {
    hide RecordsOf;
    if b == [] {
      assert a + b == a;
    } else {
      var n := |b| - 1;
      AllRecordsConcat(a, b[..n]);
      assert a + b == a + b[..n] + [b[n]] && b == b[..n] + [b[n]];
      AllRecordsSnoc(a + b[..n], b[n]);
      AllRecordsSnoc(b[..n], b[n]);
      Associate(AllRecords(a), AllRecords(b[..n]), RecordsOf(b[n], ';', ':'));
    }
  }

  lemma AllRecordsWithout(texts: seq<string>, i: nat)
    requires i < |texts|
    ensures multiset(AllRecords(texts)) == multiset(AllRecords(texts[..i] + texts[i + 1..])) + multiset(RecordsOf(texts[i], ';', ':'))
  {
    hide AllRecords, RecordsOf;
    var a, x, b := texts[..i], texts[i], texts[i + 1..];
    assert texts == a + [x] + b;
    AllRecordsConcat(a, b);
    AllRecordsSnoc(a, x);
    AllRecordsConcat(a + [x], b);
    MiddleCounted(AllRecords(a), RecordsOf(x, ';', ':'), AllRecords(b));
  }

  lemma {:induction false} AllRecordsPermute(a: seq<string>, b: seq<string>)
    requires multiset(a) == multiset(b)
    ensures multiset(AllRecords(a)) == multiset(AllRecords(b))
  {
    hide RecordsOf;
    SameSize(a, b);
    if a != [] {
      var i := Matching(a, b);
      AllRecordsPermute(a[..|a| - 1], b[..i] + b[i + 1..]);
      AllRecordsWithout(b, i);
    }
  }

  /** Whatever the order of the nodes, every set is reported with the same numbers. */
  lemma SetsOrderDoesNotMatter(d: DigitTable, a: seq<Node>, b: seq<Node>, rf: int, name: string)
    requires multiset(a) == multiset(b)
    ensures SetAt(d, a, rf, name) == SetAt(d, b, rf, name)
  {
    hide Answers, AllRecords, EntryAt;
    AnswersPermute(a, b);
    SameSize(Answers(a), Answers(b));
    AllRecordsPermute(Answers(a), Answers(b));
    EntryPermutes(d, AllRecords(Answers(a)), AllRecords(Answers(b)), name);
  }

  // ----- replicas are counted once --------------------------------------------------------

  /** A record of the set: `set` names it, or `set_name` where there is no `set`. */
  predicate InSet(rec: Pairs, name: string) {
    if "set" in rec then rec["set"] == name else "set_name" in rec && rec["set_name"] == name
  }

  /** What the records of a set report under a key, in all; what is missing or no integer adds nothing. */
  function SumOf(d: DigitTable, recs: seq<Pairs>, name: string, key: string): int {
    if recs == [] then 0
    else
      var last := recs[|recs| - 1];
      SumOf(d, recs[..|recs| - 1], name, key) + if InSet(last, name) then SafeInt(d, Look(last, key)) else 0
  }

  function CountOf(recs: seq<Pairs>, name: string): nat {
    if recs == [] then 0 else CountOf(recs[..|recs| - 1], name) + if InSet(recs[|recs| - 1], name) then 1 else 0
  }

  /** The stop-writes count of a record, under either spelling of its key. */
  function StopsOf(d: DigitTable, rec: Pairs): int {
    SafeInt(d, if "stop-writes-count" in rec then Some(rec["stop-writes-count"]) else Look(rec, "stop_writes_count"))
  }

  lemma InSetIff(rec: Pairs, name: string)
    requires name != ""
    ensures NameOf(rec) == name <==> InSet(rec, name)
  {
  }

  /** What an entry holds: the totals of its set's records, and how many there are. */
  lemma {:induction false} EntrySums(d: DigitTable, recs: seq<Pairs>, name: string)
    requires name != ""
    ensures EntryAt(d, recs, name).Some? <==> CountOf(recs, name) > 0
    ensures var e := if EntryAt(d, recs, name).Some? then EntryAt(d, recs, name).value else EMPTY;
            && e.objects == SumOf(d, recs, name, "objects")
            && e.tombstones == SumOf(d, recs, name, "tombstones")
            && e.memoryDataBytes == SumOf(d, recs, name, "memory_data_bytes")
            && e.nodeCount == CountOf(recs, name)
  {
    hide SafeInt, Look, NameOf, InSet, StopWritesOf, Max;
    if recs != [] {
      InSetIff(recs[|recs| - 1], name);
      EntrySums(d, recs[..|recs| - 1], name);
    }
  }

  /** And the greatest stop-writes count any of them reports, zero at least. */
  lemma {:induction false} EntryStops(d: DigitTable, recs: seq<Pairs>, name: string)
    requires name != ""
    ensures var stops := if EntryAt(d, recs, name).Some? then EntryAt(d, recs, name).value.stopWritesCount else 0;
            && stops >= 0
            && (forall i :: 0 <= i < |recs| && InSet(recs[i], name) ==> StopsOf(d, recs[i]) <= stops)
            && (stops > 0 ==> exists i :: 0 <= i < |recs| && InSet(recs[i], name) && StopsOf(d, recs[i]) == stops)
  {
    hide SafeInt, Look, NameOf, InSet;
    if recs != [] {
      var n := |recs| - 1;
      var front := recs[..n];
      InSetIff(recs[n], name);
      EntryStops(d, front, name);
      assert recs == front + [recs[n]];
      forall i | 0 <= i < n ensures recs[i] == front[i] {}
      var before := if EntryAt(d, front, name).Some? then EntryAt(d, front, name).value.stopWritesCount else 0;
      if before > 0 {
        var i :| 0 <= i < n && InSet(front[i], name) && StopsOf(d, front[i]) == before;
        assert InSet(recs[i], name) && StopsOf(d, recs[i]) == before;
      }
      if InSet(recs[n], name) {
        assert StopsOf(d, recs[n]) == SafeInt(d, StopWritesOf(recs[n]));
      }
    }
  }

  /** What is reported for a set: objects and tombstones over all nodes divided, rounding down, by the
      replication factor or the number of answering nodes, whichever is less (not at all where that
      is not positive); memory, stop-writes and the number of its records as they are. */
  lemma ReportedIff(d: DigitTable, nodes: seq<Node>, rf: int, name: string)
    requires name != ""
    ensures var recs, n := AllRecords(Answers(nodes)), |Answers(nodes)|;
            && (SetAt(d, nodes, rf, name).Some? <==> CountOf(recs, name) > 0)
            && (SetAt(d, nodes, rf, name).Some? ==>
                  var e, factor := SetAt(d, nodes, rf, name).value, if n == 0 then 1 else if rf <= n then rf else n;
                  && e.objects == (if factor >= 1 then SumOf(d, recs, name, "objects") / factor else SumOf(d, recs, name, "objects"))
                  && e.tombstones
                     == (if factor >= 1 then SumOf(d, recs, name, "tombstones") / factor else SumOf(d, recs, name, "tombstones"))
                  && e.memoryDataBytes == SumOf(d, recs, name, "memory_data_bytes")
                  && e.nodeCount == CountOf(recs, name)
                  && e.stopWritesCount == EntryAt(d, recs, name).value.stopWritesCount)
  {
    hide Answers, AllRecords, EntryAt, SumOf, CountOf;
    EntrySums(d, AllRecords(Answers(nodes)), name);
  }

  function NodeObjects(d: DigitTable, text: string, name: string): int { SumOf(d, RecordsOf(text, ';', ':'), name, "objects") }

  lemma {:induction false} SumConcat(d: DigitTable, a: seq<Pairs>, b: seq<Pairs>, name: string, key: string)
    ensures SumOf(d, a + b, name, key) == SumOf(d, a, name, key) + SumOf(d, b, name, key)
  {
    hide SafeInt, Look, InSet;
    if b == [] {
      assert a + b == a;
    } else {
      var n := |b| - 1;
      SumConcat(d, a, b[..n], name, key);
      assert (a + b)[..|a + b| - 1] == a + b[..n] && (a + b)[|a + b| - 1] == b[n];
    }
  }

  /** Which records of the set each answering node holds. */
  type Holding = seq<set<nat>>

  function HeldTotal(held: Holding): nat {
    if held == [] then 0 else HeldTotal(held[..|held| - 1]) + |held[|held| - 1]|
  }

  /** On how many nodes a record lives. */
  function Copies(held: Holding, x: nat): nat {
    if held == [] then 0 else Copies(held[..|held| - 1], x) + if x in held[|held| - 1] then 1 else 0
  }

  function Union(held: Holding): set<nat> {
    if held == [] then {} else Union(held[..|held| - 1]) + held[|held| - 1]
  }

  function Without(held: Holding, x: nat): Holding { seq(|held|, i requires 0 <= i < |held| => held[i] - {x}) }

  lemma {:induction false} TakeRecord(held: Holding, x: nat)
    ensures HeldTotal(held) == HeldTotal(Without(held, x)) + Copies(held, x)
    ensures Union(Without(held, x)) == Union(held) - {x}
  {
    if held != [] {
      var n := |held| - 1;
      TakeRecord(held[..n], x);
      assert Without(held, x)[..n] == Without(held[..n], x);
      var last := held[n];
      assert |last| == |last - {x}| + if x in last then 1 else 0;
    }
  }

  lemma {:induction false} OthersKeepCopies(held: Holding, x: nat, y: nat)
    requires x != y
    ensures Copies(Without(held, x), y) == Copies(held, y)
  {
    if held != [] {
      var n := |held| - 1;
      OthersKeepCopies(held[..n], x, y);
      assert Without(held, x)[..n] == Without(held[..n], x);
    }
  }

  lemma {:induction false} NothingHeld(held: Holding)
    requires Union(held) == {}
    ensures HeldTotal(held) == 0
  {
    if held != [] {
      NothingHeld(held[..|held| - 1]);
    }
  }

  predicate AtMost(held: Holding, e: nat) { forall x :: x in Union(held) ==> Copies(held, x) <= e }

  predicate Exactly(held: Holding, e: nat) { forall x :: x in Union(held) ==> Copies(held, x) == e }

  lemma TakeKeepsBounds(held: Holding, x: nat, e: nat)
    requires x in Union(held)
    ensures var less := Without(held, x);
            && Union(less) == Union(held) - {x} && HeldTotal(held) == HeldTotal(less) + Copies(held, x)
            && (AtMost(held, e) <==> AtMost(less, e) && Copies(held, x) <= e)
            && (Exactly(held, e) <==> Exactly(less, e) && Copies(held, x) == e)
  {
    hide Copies, Union, HeldTotal, Without;
    TakeRecord(held, x);
    var less := Without(held, x);
    forall y | y != x ensures Copies(less, y) == Copies(held, y) { OthersKeepCopies(held, x, y); }
  }

  /** Counting the copies node by node or record by record. */
  lemma {:induction false} DoubleCount(held: Holding, e: nat)
    requires AtMost(held, e)
    ensures HeldTotal(held) <= e * |Union(held)|
    ensures Exactly(held, e) <==> HeldTotal(held) == e * |Union(held)|
    decreases |Union(held)|
  {
    hide Copies, Union, HeldTotal, Without, AtMost, Exactly;
    var u := Union(held);
    if u == {} {
      NothingHeld(held);
      assert e * |u| == 0;
      assert Exactly(held, e) by { NoneToCheck(held, e); }
    } else {
      var x :| x in u;
      TakeKeepsBounds(held, x, e);
      DoubleCount(Without(held, x), e);
      Distribute(e, |u| - 1);
    }
  }

  lemma NoneToCheck(held: Holding, e: nat)
    requires Union(held) == {}
    ensures Exactly(held, e)
  {
  }

  lemma Distribute(e: nat, n: nat)
    ensures e * (n + 1) == e * n + e
  {
  }

  /** Each answering node reports exactly the records it holds. */
  ghost predicate Reports(d: DigitTable, texts: seq<string>, name: string, held: Holding) {
    |held| == |texts| && forall i :: 0 <= i < |texts| ==> NodeObjects(d, texts[i], name) == |held[i]|
  }

  lemma {:induction false} ReportedTotal(d: DigitTable, texts: seq<string>, name: string, held: Holding)
    requires Reports(d, texts, name, held)
    ensures SumOf(d, AllRecords(texts), name, "objects") == HeldTotal(held)
  {
    hide RecordsOf;
    if texts != [] {
      var n := |texts| - 1;
      ReportedTotal(d, texts[..n], name, held[..n]);
      SumConcat(d, AllRecords(texts[..n]), RecordsOf(texts[n], ';', ':'), name, "objects");
    }
  }

  function ReportedObjects(d: DigitTable, nodes: seq<Node>, rf: int, name: string): int {
    match SetAt(d, nodes, rf, name) case Some(e) => e.objects case None => 0
  }

  lemma DivideExact(total: nat, e: nat, n: nat)
    requires e > 0 && total <= e * n
    ensures total / e <= n && (total / e == n <==> total == e * n)
  {
    var q := total / e;
    assert total == e * q + total % e && 0 <= total % e < e;
    if q > n {
      Distribute(e, n);
      Monotone(e, n + 1, q);
    } else if q < n {
      Distribute(e, q);
      Monotone(e, q + 1, n);
    }
  }

  lemma Monotone(e: nat, a: nat, b: nat)
    requires a <= b
    ensures e * a <= e * b
  {
  }

  /** With at most min(rf, answering nodes) copies of each record the report never over-counts, and
      it is exact if and only if every record has that many copies. */
  lemma ReplicasCountedOnceIff(d: DigitTable, nodes: seq<Node>, rf: int, name: string, held: Holding)
    requires rf >= 1 && name != "" && Reports(d, Answers(nodes), name, held)
    requires AtMost(held, EffectiveRf(rf, |Answers(nodes)|))
    ensures ReportedObjects(d, nodes, rf, name) <= |Union(held)|
    ensures ReportedObjects(d, nodes, rf, name) == |Union(held)| <==> Exactly(held, EffectiveRf(rf, |Answers(nodes)|))
  {
    hide Answers, AllRecords, EntryAt, SumOf, CountOf, NodeObjects, AtMost, Exactly, Union, HeldTotal;
    var texts := Answers(nodes);
    var e := EffectiveRf(rf, |texts|);
    ReportedTotal(d, texts, name, held);
    EntrySums(d, AllRecords(texts), name);
    DoubleCount(held, e);
    DivideExact(HeldTotal(held), e, |Union(held)|);
    assert 0 / e == 0;
  }

  /** A failed node changes no set's numbers. */
  lemma FailedNodesDoNotCount(d: DigitTable, before: seq<Node>, failed: Node, after: seq<Node>, rf: int, name: string)
    requires failed.err.Some? && failed.err.value != 0
    ensures SetAt(d, before + [failed] + after, rf, name) == SetAt(d, before + after, rf, name)
  {
    FailedNodesIgnored(before, failed, after);
  }
}
