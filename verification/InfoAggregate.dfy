/** One cluster-wide view from the answers of many nodes. */
module InfoAggregate {
  import opened Prelude
  import opened InfoText
  import opened PyInt

  datatype Node = Node(name: string, err: Option<int>, resp: string)

  /** `if err:` - a zero error code counts as an answer. */
  predicate Failed(n: Node) { n.err.Some? && n.err.value != 0 }

  function Answer(n: Node): seq<string> { if Failed(n) then [] else [n.resp] }

  /** The answers of the nodes that did not fail. */
  function Answers(nodes: seq<Node>): seq<string> {
    if nodes == [] then [] else Answers(nodes[..|nodes| - 1]) + Answer(nodes[|nodes| - 1])
  }

  datatype Config = Config(d: DigitTable, sums: set<string>, mins: set<string>)

  predicate PassedOn(c: Config, k: string) { k !in c.sums && k !in c.mins }

  function ValueOf(text: string, k: string): Option<string> { Look(KvOf(text, ';'), k) }

  function IntOf(c: Config, text: string, k: string): int { SafeInt(c.d, ValueOf(text, k)) }

  predicate Reported(texts: seq<string>, k: string) { exists i :: 0 <= i < |texts| && ValueOf(texts[i], k).Some? }

  // ----- what the three accumulators hold for a key --------------------------------

  function PassAt(c: Config, texts: seq<string>, k: string): Option<string> {
    if texts == [] || !PassedOn(c, k) then None
    else
      var before := PassAt(c, texts[..|texts| - 1], k);
      if before.Some? then before else ValueOf(texts[|texts| - 1], k)
  }

  /** The total over all answers; one that does not report the key adds nothing. */
  function Total(c: Config, texts: seq<string>, k: string): int {
    if texts == [] then 0 else Total(c, texts[..|texts| - 1], k) + IntOf(c, texts[|texts| - 1], k)
  }

  function SumAt(c: Config, texts: seq<string>, k: string): Option<int> {
    if k in c.sums && Reported(texts, k) then Some(Total(c, texts, k)) else None
  }

  function MinAt(c: Config, texts: seq<string>, k: string): Option<int> {
    if texts == [] || k !in c.mins || k in c.sums then None
    else
      var before, text := MinAt(c, texts[..|texts| - 1], k), texts[|texts| - 1];
      if ValueOf(text, k).None? then before
      else if before.None? || IntOf(c, text, k) < before.value then Some(IntOf(c, text, k))
      else before
  }

  /** What the aggregate holds for a key. */
  function AggregateAt(c: Config, texts: seq<string>, k: string): Option<string> {
    if k in c.sums then (match SumAt(c, texts, k) case Some(n) => Some(Show(n)) case None => None)
    else if k in c.mins then (match MinAt(c, texts, k) case Some(n) => Some(Show(n)) case None => None)
    else PassAt(c, texts, k)
  }

  /** A number of the aggregate that `str` refuses. */
  predicate Unprintable(c: Config, texts: seq<string>, k: string) {
    || (SumAt(c, texts, k).Some? && !Printable(SumAt(c, texts, k).value))
    || (MinAt(c, texts, k).Some? && !Printable(MinAt(c, texts, k).value))
  }

  // ----- what those values mean ------------------------------------------------------

  lemma ReportedSnoc(texts: seq<string>, text: string, k: string)
    ensures Reported(texts + [text], k) <==> Reported(texts, k) || ValueOf(text, k).Some?
  {
    hide ValueOf;
    var all := texts + [text];
    if Reported(texts, k) {
      var i :| 0 <= i < |texts| && ValueOf(texts[i], k).Some?;
      assert all[i] == texts[i];
    }
    assert all[|texts|] == text;
  }

  lemma {:induction false} MinIsLeast(c: Config, texts: seq<string>, k: string)
    requires k in c.mins && k !in c.sums
    ensures MinAt(c, texts, k).Some? <==> Reported(texts, k)
    ensures MinAt(c, texts, k).Some? ==>
              && (exists i :: 0 <= i < |texts| && ValueOf(texts[i], k).Some? && IntOf(c, texts[i], k) == MinAt(c, texts, k).value)
              && (forall i :: 0 <= i < |texts| && ValueOf(texts[i], k).Some? ==> MinAt(c, texts, k).value <= IntOf(c, texts[i], k))
  {
    hide ValueOf, IntOf;
    if texts != [] {
      var n := |texts| - 1;
      var front, text := texts[..n], texts[n];
      MinIsLeast(c, front, k);
      assert texts == front + [text];
      ReportedSnoc(front, text, k);
      var m, m0 := MinAt(c, texts, k), MinAt(c, front, k);
      if m.Some? {
        if m == m0 {
          var i :| 0 <= i < |front| && ValueOf(front[i], k).Some? && IntOf(c, front[i], k) == m0.value;
          assert texts[i] == front[i];
        } else {
          assert ValueOf(texts[n], k).Some? && IntOf(c, texts[n], k) == m.value;
        }
        forall i | 0 <= i < |texts| && ValueOf(texts[i], k).Some? ensures m.value <= IntOf(c, texts[i], k) {
          assert i < n ==> texts[i] == front[i];
        }
      }
    }
  }

  /** The first answer reporting the key. */
  predicate IsFirst(texts: seq<string>, k: string, i: nat) {
    i < |texts| && ValueOf(texts[i], k).Some? && forall j :: 0 <= j < i ==> ValueOf(texts[j], k).None?
  }

  /** A passthrough key has the value of the first node reporting it. */
  lemma {:induction false} PassIsFirst(c: Config, texts: seq<string>, k: string) returns (i: nat)
    requires PassedOn(c, k)
    ensures PassAt(c, texts, k).Some? <==> Reported(texts, k)
    ensures Reported(texts, k) ==> IsFirst(texts, k, i) && PassAt(c, texts, k) == ValueOf(texts[i], k)
  {
    hide ValueOf, Reported;
    if texts == [] {
      i := 0;
      NotReportedEmpty(k);
    } else {
      var n := |texts| - 1;
      var front := texts[..n];
      i := PassIsFirst(c, front, k);
      assert texts == front + [texts[n]];
      ReportedSnoc(front, texts[n], k);
      if Reported(front, k) {
        assert forall j :: 0 <= j <= i ==> texts[j] == front[j];
      } else {
        i := n;
        UnreportedAt(front, k);
        assert forall j :: 0 <= j < n ==> texts[j] == front[j];
      }
    }
  }

  lemma NotReportedEmpty(k: string)
    ensures !Reported([], k)
  {
  }

  lemma UnreportedAt(texts: seq<string>, k: string)
    requires !Reported(texts, k)
    ensures forall j :: 0 <= j < |texts| ==> ValueOf(texts[j], k).None?
  {
    hide ValueOf;
  }

  /** The keys of the aggregate are all the keys any answering node reported. */
  lemma KeysAreUnion(c: Config, texts: seq<string>, k: string)
    ensures AggregateAt(c, texts, k).Some? <==> Reported(texts, k)
  {
    hide Show, ValueOf, Total;
    if PassedOn(c, k) {
      var _ := PassIsFirst(c, texts, k);
    } else if k !in c.sums {
      MinIsLeast(c, texts, k);
    }
  }

  // ----- independence of the order ----------------------------------------------------

  lemma {:induction false} TotalWithout(c: Config, texts: seq<string>, k: string, i: nat)
    requires i < |texts|
    ensures Total(c, texts, k) == Total(c, texts[..i] + texts[i + 1..], k) + IntOf(c, texts[i], k)
  {
    hide IntOf;
    var n := |texts| - 1;
    var rest := texts[..i] + texts[i + 1..];
    if i < n {
      TotalWithout(c, texts[..n], k, i);
      assert texts[..n][..i] + texts[..n][i + 1..] == rest[..|rest| - 1];
      assert rest[|rest| - 1] == texts[n];
    } else {
      assert rest == texts[..n];
    }
  }

  lemma TakenOut<T>(a: seq<T>, i: nat)
    requires i < |a|
    ensures multiset(a[..i] + a[i + 1..]) == multiset(a) - multiset{a[i]}
  {
    assert a == a[..i] + [a[i]] + a[i + 1..];
  }

  /** Where the last element of one order stands in another. */
  lemma Matching<T>(a: seq<T>, b: seq<T>) returns (i: nat)
    requires multiset(a) == multiset(b) && a != []
    ensures i < |b| && b[i] == a[|a| - 1] && multiset(a[..|a| - 1]) == multiset(b[..i] + b[i + 1..])
  {
    var n := |a| - 1;
    assert a[n] in multiset(b);
    i :| 0 <= i < |b| && b[i] == a[n];
    TakenOut(b, i);
    TakenOut(a, n);
    assert a[..n] + a[n + 1..] == a[..n];
  }

  lemma {:induction false} TotalPermutes(c: Config, a: seq<string>, b: seq<string>, k: string)
    requires multiset(a) == multiset(b)
    ensures Total(c, a, k) == Total(c, b, k)
  {
    hide IntOf;
    SameSize(a, b);
    if a != [] {
      var i := Matching(a, b);
      TotalPermutes(c, a[..|a| - 1], b[..i] + b[i + 1..], k);
      TotalWithout(c, b, k, i);
    }
  }

  lemma SameSize<T>(a: seq<T>, b: seq<T>)
    requires multiset(a) == multiset(b)
    ensures |a| == |b|
  {
    assert |multiset(a)| == |a| && |multiset(b)| == |b|;
  }

  lemma ReportedPermutes(a: seq<string>, b: seq<string>, k: string)
    requires multiset(a) == multiset(b)
    ensures Reported(a, k) <==> Reported(b, k)
  {
    hide ValueOf;
    assert forall t :: t in a <==> t in multiset(a);
    assert forall t :: t in b <==> t in multiset(b);
    if Reported(a, k) {
      var i :| 0 <= i < |a| && ValueOf(a[i], k).Some?;
      assert a[i] in multiset(b);
      var j :| 0 <= j < |b| && b[j] == a[i];
    }
    if Reported(b, k) {
      var i :| 0 <= i < |b| && ValueOf(b[i], k).Some?;
      assert b[i] in multiset(a);
      var j :| 0 <= j < |a| && a[j] == b[i];
    }
  }

  /** Every bound over one order of the answers is one over the other. */
  lemma MinBelow(c: Config, a: seq<string>, b: seq<string>, k: string)
    requires multiset(a) == multiset(b) && k in c.mins && k !in c.sums
    requires MinAt(c, a, k).Some? && MinAt(c, b, k).Some?
    ensures MinAt(c, a, k).value <= MinAt(c, b, k).value
  {
    MinIsLeast(c, a, k);
    MinIsLeast(c, b, k);
    hide ValueOf, IntOf, MinAt;
    var i :| 0 <= i < |b| && ValueOf(b[i], k).Some? && IntOf(c, b[i], k) == MinAt(c, b, k).value;
    assert b[i] in multiset(a);
    var j :| 0 <= j < |a| && a[j] == b[i];
  }

  lemma {:induction false} AnswersConcat(a: seq<Node>, b: seq<Node>)
    ensures Answers(a + b) == Answers(a) + Answers(b)
  {
    hide Answer;
    if b == [] {
      assert a + b == a;
    } else {
      var n := |b| - 1;
      AnswersConcat(a, b[..n]);
      assert (a + b)[..|a + b| - 1] == a + b[..n] && (a + b)[|a + b| - 1] == b[n];
      Associate(Answers(a), Answers(b[..n]), Answer(b[n]));
    }
  }

  lemma MiddleCounted<T>(a: seq<T>, b: seq<T>, c: seq<T>)
    ensures multiset(a + b + c) == multiset(a + c) + multiset(b)
  {
  }

  lemma AnswersWithout(nodes: seq<Node>, i: nat)
    requires i < |nodes|
    ensures multiset(Answers(nodes)) == multiset(Answers(nodes[..i] + nodes[i + 1..])) + multiset(Answer(nodes[i]))
  {
    hide Answers, Answer;
    var a, x, b := nodes[..i], nodes[i], nodes[i + 1..];
    AnswersConcat(a, b);
    AnswersConcat(a, [x]);
    AnswersConcat(a + [x], b);
    assert nodes == a + [x] + b;
    OneAnswer(x);
    MiddleCounted(Answers(a), Answer(x), Answers(b));
  }

  lemma OneAnswer(x: Node)
    ensures Answers([x]) == Answer(x)
  {
    assert [x][..0] == [];
  }

  lemma {:induction false} AnswersPermute(a: seq<Node>, b: seq<Node>)
    requires multiset(a) == multiset(b)
    ensures multiset(Answers(a)) == multiset(Answers(b))
  {
    hide Answer;
    SameSize(a, b);
    if a != [] {
      var i := Matching(a, b);
      AnswersPermute(a[..|a| - 1], b[..i] + b[i + 1..]);
      AnswersWithout(b, i);
    }
  }

  /** In whatever order the nodes answer, the summed and minimum keys and the key set come out
      the same, and so does whether a number is too long. */
  lemma OrderDoesNotMatter(c: Config, a: seq<Node>, b: seq<Node>, k: string)
    requires multiset(a) == multiset(b)
    ensures AggregateAt(c, Answers(a), k).Some? <==> AggregateAt(c, Answers(b), k).Some?
    ensures !PassedOn(c, k) ==> AggregateAt(c, Answers(a), k) == AggregateAt(c, Answers(b), k)
    ensures Unprintable(c, Answers(a), k) <==> Unprintable(c, Answers(b), k)
  {
    hide Show, Printable, Answers, ValueOf;
    var s, t := Answers(a), Answers(b);
    AnswersPermute(a, b);
    ReportedPermutes(s, t, k);
    KeysAreUnion(c, s, k);
    KeysAreUnion(c, t, k);
    if k in c.sums {
      TotalPermutes(c, s, t, k);
    } else if k in c.mins {
      MinIsLeast(c, s, k);
      MinIsLeast(c, t, k);
      if Reported(s, k) {
        MinBelow(c, s, t, k);
        MinBelow(c, t, s, k);
      }
    }
  }

  /** A node with an error code other than zero changes nothing, wherever it is in the list; one
      without a code, or with zero, adds its answer there. */
  lemma FailedNodesIgnored(before: seq<Node>, failed: Node, after: seq<Node>)
    ensures failed.err.Some? && failed.err.value != 0 ==> Answers(before + [failed] + after) == Answers(before + after)
    ensures failed.err in {None, Some(0)} ==> Answers(before + [failed] + after) == Answers(before) + [failed.resp] + Answers(after)
  {
    hide Answers;
    AnswersConcat(before + [failed], after);
    AnswersConcat(before, [failed]);
    AnswersConcat(before, after);
    OneAnswer(failed);
  }

  lemma AnswersSnoc(nodes: seq<Node>, i: nat)
    requires i < |nodes|
    ensures Answers(nodes[..i + 1]) == if Failed(nodes[i]) then Answers(nodes[..i]) else Answers(nodes[..i]) + [nodes[i].resp]
  {
    assert nodes[..i + 1][..i] == nodes[..i];
  }

  // ----- the loop ------------------------------------------------------------------------

  /** The answers to count for a key: the last one only once the key has been handled. */
  function Seen(front: seq<string>, text: string, rest: set<string>, k: string): seq<string> {
    if k in rest then front else front + [text]
  }

  ghost predicate PassHolds(c: Config, front: seq<string>, text: string, rest: set<string>, merged: Pairs) {
    forall k :: Look(merged, k) == PassAt(c, Seen(front, text, rest, k), k)
  }

  ghost predicate SumHolds(c: Config, front: seq<string>, text: string, rest: set<string>, sums: map<string, int>) {
    forall k :: Look(sums, k) == SumAt(c, Seen(front, text, rest, k), k)
  }

  ghost predicate MinHolds(c: Config, front: seq<string>, text: string, rest: set<string>, mins: map<string, int>) {
    forall k :: Look(mins, k) == MinAt(c, Seen(front, text, rest, k), k)
  }

  ghost predicate Settled(c: Config, texts: seq<string>, merged: Pairs, sums: map<string, int>, mins: map<string, int>) {
    forall k :: Look(merged, k) == PassAt(c, texts, k) && Look(sums, k) == SumAt(c, texts, k) && Look(mins, k) == MinAt(c, texts, k)
  }

  lemma PassSnoc(c: Config, front: seq<string>, text: string, k: string)
    ensures PassAt(c, front + [text], k) == if PassedOn(c, k) && PassAt(c, front, k).None? then ValueOf(text, k) else PassAt(c, front, k)
  {
    assert (front + [text])[..|front|] == front;
    hide ValueOf;
  }

  lemma SumSnoc(c: Config, front: seq<string>, text: string, k: string)
    ensures SumAt(c, front + [text], k)
            == if k !in c.sums || ValueOf(text, k).None? then SumAt(c, front, k)
               else if SumAt(c, front, k).Some? then Some(SumAt(c, front, k).value + IntOf(c, text, k))
               else Some(IntOf(c, text, k))
  {
    hide ValueOf, Reported, KvOf, Parse;
    assert (front + [text])[..|front|] == front;
    ReportedSnoc(front, text, k);
    if !Reported(front, k) {
      NothingReported(c, front, k);
    }
  }

  lemma MinSnoc(c: Config, front: seq<string>, text: string, k: string)
    ensures MinAt(c, front + [text], k)
            == if k !in c.mins || k in c.sums || ValueOf(text, k).None? then MinAt(c, front, k)
               else if MinAt(c, front, k).None? || IntOf(c, text, k) < MinAt(c, front, k).value then Some(IntOf(c, text, k))
               else MinAt(c, front, k)
  {
    assert (front + [text])[..|front|] == front;
    hide ValueOf, IntOf;
  }

  lemma {:induction false} NothingReported(c: Config, texts: seq<string>, k: string)
    requires !Reported(texts, k)
    ensures Total(c, texts, k) == 0
  {
    hide ValueOf;
    if texts != [] {
      var n := |texts| - 1;
      assert texts == texts[..n] + [texts[n]];
      ReportedSnoc(texts[..n], texts[n], k);
      NothingReported(c, texts[..n], k);
    }
  }

  lemma PassHandled(c: Config, front: seq<string>, text: string, rest: set<string>, merged: Pairs, k: string, v: string)
    requires PassHolds(c, front, text, rest, merged) && k in rest && ValueOf(text, k) == Some(v)
    ensures PassHolds(c, front, text, rest - {k}, if PassedOn(c, k) && k !in merged then merged[k := v] else merged)
  {
    hide PassAt, PassedOn, ValueOf;
    PassSnoc(c, front, text, k);
    assert Look(merged, k) == PassAt(c, front, k) by { assert Seen(front, text, rest, k) == front; }
    var merged' := if PassedOn(c, k) && k !in merged then merged[k := v] else merged;
    forall x ensures Look(merged', x) == PassAt(c, Seen(front, text, rest - {k}, x), x) {
      if x != k {
        assert Look(merged, x) == PassAt(c, Seen(front, text, rest, x), x);
      }
    }
  }

  lemma SumHandled(c: Config, front: seq<string>, text: string, rest: set<string>, sums: map<string, int>, k: string)
    requires SumHolds(c, front, text, rest, sums) && k in rest && ValueOf(text, k).Some?
    ensures SumHolds(c, front, text, rest - {k},
                     if k in c.sums then sums[k := (if k in sums then sums[k] else 0) + IntOf(c, text, k)] else sums)
  {
    hide SumAt, ValueOf, IntOf;
    SumSnoc(c, front, text, k);
    assert Look(sums, k) == SumAt(c, front, k) by { assert Seen(front, text, rest, k) == front; }
    var sums' := if k in c.sums then sums[k := (if k in sums then sums[k] else 0) + IntOf(c, text, k)] else sums;
    forall x ensures Look(sums', x) == SumAt(c, Seen(front, text, rest - {k}, x), x) {
      if x != k {
        assert Look(sums, x) == SumAt(c, Seen(front, text, rest, x), x);
      }
    }
  }

  /** `min(mins.get(k, cur), cur)` */
  function Lowered(mins: map<string, int>, k: string, cur: int): int {
    var least := if k in mins then mins[k] else cur;
    if cur < least then cur else least
  }

  lemma MinHandled(c: Config, front: seq<string>, text: string, rest: set<string>, mins: map<string, int>, k: string)
    requires MinHolds(c, front, text, rest, mins) && k in rest && ValueOf(text, k).Some?
    ensures MinHolds(c, front, text, rest - {k}, if k in c.mins && k !in c.sums then mins[k := Lowered(mins, k, IntOf(c, text, k))] else mins)
  {
    hide MinAt, ValueOf, IntOf;
    MinSnoc(c, front, text, k);
    assert Look(mins, k) == MinAt(c, front, k) by { assert Seen(front, text, rest, k) == front; }
    var mins' := if k in c.mins && k !in c.sums then mins[k := Lowered(mins, k, IntOf(c, text, k))] else mins;
    forall x ensures Look(mins', x) == MinAt(c, Seen(front, text, rest - {k}, x), x) {
      if x != k {
        assert Look(mins, x) == MinAt(c, Seen(front, text, rest, x), x);
      }
    }
  }

  lemma AnswerStarts(c: Config, front: seq<string>, text: string, keys: set<string>,
                     merged: Pairs, sums: map<string, int>, mins: map<string, int>)
    requires Settled(c, front, merged, sums, mins) && forall k :: k !in keys ==> ValueOf(text, k).None?
    ensures PassHolds(c, front, text, keys, merged) && SumHolds(c, front, text, keys, sums) && MinHolds(c, front, text, keys, mins)
  {
    hide PassAt, SumAt, MinAt, ValueOf, IntOf;
    forall k
      ensures Look(merged, k) == PassAt(c, Seen(front, text, keys, k), k)
      ensures Look(sums, k) == SumAt(c, Seen(front, text, keys, k), k)
      ensures Look(mins, k) == MinAt(c, Seen(front, text, keys, k), k)
    {
      PassSnoc(c, front, text, k);
      SumSnoc(c, front, text, k);
      MinSnoc(c, front, text, k);
    }
  }

  lemma AnswerEnds(c: Config, front: seq<string>, text: string, merged: Pairs, sums: map<string, int>, mins: map<string, int>)
    requires PassHolds(c, front, text, {}, merged) && SumHolds(c, front, text, {}, sums) && MinHolds(c, front, text, {}, mins)
    ensures Settled(c, front + [text], merged, sums, mins)
  {
    hide PassAt, SumAt, MinAt, ValueOf, IntOf;
    assert forall k :: Seen(front, text, {}, k) == front + [text];
  }

  // ----- the order of the keys -------------------------------------------------------------

  /** How the values of a key are combined. */
  datatype Treatment = Passed | Summed | Least

  function TreatmentOf(c: Config, k: string): Treatment { if k in c.sums then Summed else if k in c.mins then Least else Passed }

  function Only(c: Config, how: Treatment, names: seq<string>): seq<string> {
    if names == [] then []
    else
      var front, k := Only(c, how, names[..|names| - 1]), names[|names| - 1];
      if TreatmentOf(c, k) == how then front + [k] else front
  }

  function AllNames(texts: seq<string>): seq<string> {
    if texts == [] then [] else AllNames(texts[..|texts| - 1]) + Once(NamesOf(texts[|texts| - 1], ';'))
  }

  /** The keys so treated, in the order in which the answers first report them. */
  function OrderOf(c: Config, how: Treatment, names: seq<string>): seq<string> { Once(Only(c, how, names)) }

  lemma OnlySnoc(c: Config, how: Treatment, names: seq<string>, k: string)
    ensures OrderOf(c, how, names + [k])
            == if TreatmentOf(c, k) == how then Noted(OrderOf(c, how, names), k) else OrderOf(c, how, names)
  {
    assert (names + [k])[..|names|] == names;
    hide Once;
    OnceSnoc(Only(c, how, names), k);
  }

  lemma {:induction false} OnlyThose(c: Config, how: Treatment, names: seq<string>, k: string)
    ensures k in Only(c, how, names) <==> k in names && TreatmentOf(c, k) == how
  {
    if names != [] {
      var n := |names| - 1;
      OnlyThose(c, how, names[..n], k);
      assert names == names[..n] + [names[n]];
    }
  }

  lemma {:induction false} NamesReported(texts: seq<string>, k: string)
    ensures k in AllNames(texts) <==> Reported(texts, k)
  {
    hide NamesOf, KvOf;
    if texts == [] {
      NotReportedEmpty(k);
    } else {
      var n := |texts| - 1;
      NamesReported(texts[..n], k);
      assert texts == texts[..n] + [texts[n]];
      ReportedSnoc(texts[..n], texts[n], k);
      OnceSame(NamesOf(texts[n], ';'));
      NamesHaveValue(texts[n], ';', k);
    }
  }

  /** The three orders together list every reported key, and each once. */
  lemma OrderListsReported(c: Config, how: Treatment, texts: seq<string>, k: string)
    ensures Distinct(OrderOf(c, how, AllNames(texts)))
    ensures k in OrderOf(c, how, AllNames(texts)) <==> Reported(texts, k) && TreatmentOf(c, k) == how
  {
    hide Reported, AllNames, Only, Once;
    OnceSame(Only(c, how, AllNames(texts)));
    OnlyThose(c, how, AllNames(texts), k);
    NamesReported(texts, k);
  }

  /** Each accumulator lists its keys in that order, and lists those it holds. */
  ghost predicate Ordered(c: Config, names: seq<string>, merged: Dict<string>, sums: Dict<int>, mins: Dict<int>) {
    && merged.order == OrderOf(c, Passed, names) && sums.order == OrderOf(c, Summed, names) && mins.order == OrderOf(c, Least, names)
    && (forall k :: k in merged.order <==> k in merged.items)
    && (forall k :: k in sums.order <==> k in sums.items)
    && (forall k :: k in mins.order <==> k in mins.items)
  }

  /** What one pair does to the three accumulators. */
  lemma NameHandled(c: Config, names: seq<string>, k: string, v: string, n: int,
                    merged: Dict<string>, sums: Dict<int>, mins: Dict<int>)
    requires Ordered(c, names, merged, sums, mins)
    ensures Ordered(c, names + [k], if PassedOn(c, k) && k !in merged.items then Assign(merged, k, v) else merged,
                    if k in c.sums then Assign(sums, k, n) else sums,
                    if k in c.mins && k !in c.sums then Assign(mins, k, n) else mins)
  {
    hide OrderOf;
    OnlySnoc(c, Passed, names, k);
    OnlySnoc(c, Summed, names, k);
    OnlySnoc(c, Least, names, k);
  }

  /** The inner loop: one answer's pairs, in the order its dictionary lists them. */
  method AddAnswer(c: Config, ghost front: seq<string>, text: string,
                   merged0: Dict<string>, sums0: Dict<int>, mins0: Dict<int>)
    returns (merged: Dict<string>, sums: Dict<int>, mins: Dict<int>)
    requires Settled(c, front, merged0.items, sums0.items, mins0.items) && Ordered(c, AllNames(front), merged0, sums0, mins0)
    ensures Settled(c, front + [text], merged.items, sums.items, mins.items)
    ensures Ordered(c, AllNames(front + [text]), merged, sums, mins)
  {
    hide PassAt, SumAt, MinAt, KvOf, NamesOf, Once, SafeInt, Settled, PassHolds, SumHolds, MinHolds, Ordered, AllNames;
    merged, sums, mins := merged0, sums0, mins0;
    var kv := ParseKvPairs(text, ';');
    ghost var rest := kv.items.Keys;
    KeysListed(text);
    AnswerStarts(c, front, text, rest, merged.items, sums.items, mins.items);
    assert AllNames(front) + kv.order[..0] == AllNames(front);
    for j := 0 to |kv.order|
      invariant rest == kv.items.Keys - Set(kv.order[..j])
      invariant PassHolds(c, front, text, rest, merged.items) && SumHolds(c, front, text, rest, sums.items)
      invariant MinHolds(c, front, text, rest, mins.items)
      invariant Ordered(c, AllNames(front) + kv.order[..j], merged, sums, mins)
    {
      var k := kv.order[j];
      var v := kv.items[k];
      assert k in rest;
      assert ValueOf(text, k) == Some(v);
      var n := if k in c.sums then (if k in sums.items then sums.items[k] else 0) + SafeInt(c.d, Some(v))
               else Lowered(mins.items, k, SafeInt(c.d, Some(v)));
      PassHandled(c, front, text, rest, merged.items, k, v);
      SumHandled(c, front, text, rest, sums.items, k);
      MinHandled(c, front, text, rest, mins.items, k);
      NameHandled(c, AllNames(front) + kv.order[..j], k, v, n, merged, sums, mins);
      Associate(AllNames(front), kv.order[..j], [k]);
      assert kv.order[..j + 1] == kv.order[..j] + [k];
      rest := rest - {k};
      if k !in c.sums && k !in c.mins && k !in merged.items {
        merged := Assign(merged, k, v);
      }
      if k in c.sums {
        sums := Assign(sums, k, n);
      } else if k in c.mins {
        mins := Assign(mins, k, n);
      }
    }
    assert kv.order[..|kv.order|] == kv.order && rest == {};
    AnswerEnds(c, front, text, merged.items, sums.items, mins.items);
    NamesAppended(front, text);
  }

  ghost function Set(names: seq<string>): set<string> { set k | k in names }

  lemma KeysListed(text: string)
    ensures Distinct(Once(NamesOf(text, ';')))
    ensures forall k :: k in Once(NamesOf(text, ';')) <==> k in KvOf(text, ';')
  {
    hide NamesOf, KvOf;
    OnceSame(NamesOf(text, ';'));
    forall k ensures k in NamesOf(text, ';') <==> k in KvOf(text, ';') { NamesHaveValue(text, ';', k); }
  }

  lemma NamesAppended(front: seq<string>, text: string)
    ensures AllNames(front + [text]) == AllNames(front) + Once(NamesOf(text, ';'))
  {
    assert (front + [text])[..|front|] == front;
  }

  /** The last two loops: the totals and the minima are printed into the result, after its own keys;
      the first one `str` refuses ends the call. */
  method PrintInto(merged0: Dict<string>, numbers: Dict<int>) returns (printed: Option<Dict<string>>)
    requires Distinct(numbers.order) && forall k :: k in numbers.order <==> k in numbers.items
    requires forall k :: k in numbers.order ==> k !in merged0.order
    ensures printed.None? <==> exists k :: k in numbers.items && !Printable(numbers.items[k])
    ensures printed.Some? ==>
              && printed.value.order == merged0.order + numbers.order
              && forall k :: Look(printed.value.items, k)
                             == if k in numbers.items then Some(Show(numbers.items[k])) else Look(merged0.items, k)
  {
    hide Show, Printable;
    var merged := merged0;
    for j := 0 to |numbers.order|
      invariant forall k :: Look(merged.items, k)
                            == if k in numbers.order[..j] then Some(Show(numbers.items[k])) else Look(merged0.items, k)
      invariant merged.order == merged0.order + numbers.order[..j]
      invariant forall k :: k in numbers.order[..j] ==> Printable(numbers.items[k])
    {
      var k := numbers.order[j];
      if !Printable(numbers.items[k]) {
        return None;
      }
      assert numbers.order[..j + 1] == numbers.order[..j] + [k];
      Associate(merged0.order, numbers.order[..j], [k]);
      merged := Assign(merged, k, Show(numbers.items[k]));
    }
    assert numbers.order[..|numbers.order|] == numbers.order;
    return Some(merged);
  }

  /** Only a total can be too long: a minimum was read from a text within the limit. */
  lemma UnprintableIff(c: Config, texts: seq<string>, k: string)
    requires IsTable(c.d)
    ensures Unprintable(c, texts, k) <==> k in c.sums && Reported(texts, k) && !Printable(Total(c, texts, k))
  {
    hide Printable, ValueOf, Parse, Total;
    if k in c.mins && k !in c.sums && MinAt(c, texts, k).Some? {
      MinIsLeast(c, texts, k);
      hide MinAt;
      var i :| 0 <= i < |texts| && ValueOf(texts[i], k).Some? && IntOf(c, texts[i], k) == MinAt(c, texts, k).value;
      SafePrintable(c.d, ValueOf(texts[i], k));
    }
  }

  lemma SafePrintable(d: DigitTable, value: Option<string>)
    requires IsTable(d)
    ensures Printable(SafeInt(d, value))
  {
    if value.Some? && Parse(d, value.value).Some? {
      ParsedPrintable(d, value.value);
    }
  }

  /** `aggregate_node_kv`: the passed keys come first, then the summed ones, then the minima; None
      stands for the ValueError of `str`. */
  method AggregateNodeKv(c: Config, nodes: seq<Node>) returns (result: Option<Dict<string>>)
    ensures result.None? <==> exists k :: Unprintable(c, Answers(nodes), k)
    ensures result.Some? ==> forall k :: Look(result.value.items, k) == AggregateAt(c, Answers(nodes), k)
    ensures var names := AllNames(Answers(nodes));
            result.Some? ==>
              result.value.order == OrderOf(c, Passed, names) + OrderOf(c, Summed, names) + OrderOf(c, Least, names)
  {
    hide PassAt, SumAt, MinAt, Show, Printable, Answers, Settled, Ordered, AllNames, OrderOf;
    var merged: Dict<string>, sums: Dict<int>, mins: Dict<int> := Dict(map[], []), Dict(map[], []), Dict(map[], []);
    NothingYet(c);
    var i := 0;
    while i < |nodes|
      invariant i <= |nodes| && Settled(c, Answers(nodes[..i]), merged.items, sums.items, mins.items)
      invariant Ordered(c, AllNames(Answers(nodes[..i])), merged, sums, mins)
    {
      AnswersSnoc(nodes, i);
      if !Failed(nodes[i]) {
        merged, sums, mins := AddAnswer(c, Answers(nodes[..i]), nodes[i].resp, merged, sums, mins);
      }
      i := i + 1;
    }
    assert nodes[..i] == nodes;
    OrdersApart(c, Answers(nodes), merged, sums, mins);
    forall k
      ensures Unprintable(c, Answers(nodes), k)
              <==> (k in sums.items && !Printable(sums.items[k])) || (k in mins.items && !Printable(mins.items[k]))
      ensures AggregateAt(c, Answers(nodes), k)
              == if k in mins.items then Some(Show(mins.items[k])) else if k in sums.items then Some(Show(sums.items[k]))
                 else Look(merged.items, k)
    {
      SettledAt(c, Answers(nodes), merged.items, sums.items, mins.items, k);
    }
    hide Unprintable, AggregateAt;
    result := PrintInto(merged, sums);
    if result.Some? {
      result := PrintInto(result.value, mins);
    }
  }

  lemma OrdersApart(c: Config, texts: seq<string>, merged: Dict<string>, sums: Dict<int>, mins: Dict<int>)
    requires Ordered(c, AllNames(texts), merged, sums, mins)
    ensures var names := AllNames(texts);
            merged.order == OrderOf(c, Passed, names) && sums.order == OrderOf(c, Summed, names) && mins.order == OrderOf(c, Least, names)
    ensures Distinct(sums.order) && (forall k :: k in sums.order <==> k in sums.items)
    ensures Distinct(mins.order) && (forall k :: k in mins.order <==> k in mins.items)
    ensures forall k :: k in sums.order ==> k !in merged.order
    ensures forall k :: k in mins.order ==> k !in merged.order + sums.order
  {
    hide OrderOf, AllNames, Reported;
    OrderListsReported(c, Summed, texts, "");
    OrderListsReported(c, Least, texts, "");
    forall k
      ensures k in merged.order ==> TreatmentOf(c, k) == Passed
      ensures k in sums.order ==> TreatmentOf(c, k) == Summed
      ensures k in mins.order ==> TreatmentOf(c, k) == Least
    {
      OrderListsReported(c, Passed, texts, k);
      OrderListsReported(c, Summed, texts, k);
      OrderListsReported(c, Least, texts, k);
    }
  }

  lemma NothingYet(c: Config)
    ensures Answers([]) == [] && Settled(c, [], map[], map[], map[])
    ensures Ordered(c, AllNames([]), Dict(map[], []), Dict(map[], []), Dict(map[], []))
  {
  }

  lemma SettledAt(c: Config, texts: seq<string>, merged: Pairs, sums: map<string, int>, mins: map<string, int>, k: string)
    requires Settled(c, texts, merged, sums, mins)
    ensures AggregateAt(c, texts, k)
            == if k in mins then Some(Show(mins[k])) else if k in sums then Some(Show(sums[k])) else Look(merged, k)
    ensures Unprintable(c, texts, k) <==> (k in sums && !Printable(sums[k])) || (k in mins && !Printable(mins[k]))
  {
    hide Show, Printable, ValueOf, Reported, Total;
    Disjointness(c, texts);
    assert Look(merged, k) == PassAt(c, texts, k) && Look(sums, k) == SumAt(c, texts, k) && Look(mins, k) == MinAt(c, texts, k);
  }

  /** A key is in at most one accumulator. */
  lemma Disjointness(c: Config, texts: seq<string>)
    ensures forall k :: SumAt(c, texts, k).Some? ==> k in c.sums
    ensures forall k :: MinAt(c, texts, k).Some? ==> k in c.mins && k !in c.sums
    ensures forall k :: PassAt(c, texts, k).Some? ==> PassedOn(c, k)
  {
  }
}
