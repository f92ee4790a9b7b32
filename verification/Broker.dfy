/** The event broker: one bounded drop-oldest queue per subscriber.  No method awaits while it
    changes anything, so a run is a sequence of whole operations. */
module Broker {
  import opened Prelude

  type SubId = string
  type Filter = Option<set<string>>

  datatype Event = Event(kind: string, data: string)

  datatype State = State(
    maxConnections: int,
    queueSize: int,
    subscribers: map<SubId, Filter>,
    queues: map<SubId, seq<Event>>)   // a consumer keeps its queue after it is unsubscribed

  datatype Op =
    | Subscribe(id: SubId, types: Filter)
    | Unsubscribe(id: SubId)
    | Publish(event: Event)
    | Consume(id: SubId)

  function Init(maxConnections: int, queueSize: int): State { State(maxConnections, queueSize, map[], map[]) }

  /** No filter and the empty filter both mean every event. */
  predicate Matches(types: Filter, e: Event) { types.None? || types.value == {} || e.kind in types.value }

  /** `Queue(maxsize)`: a size of zero or less is unbounded. */
  predicate Full(q: seq<Event>, size: int) { size > 0 && |q| >= size }

  function Deliver(q: seq<Event>, e: Event, size: int): seq<Event> {
    if Full(q, size) then q[1..] + [e] else q + [e]
  }

  predicate Receives(s: State, id: SubId, e: Event) {
    id in s.subscribers && id in s.queues && Matches(s.subscribers[id], e)
  }

  predicate Enabled(s: State, op: Op) {
    match op
    case Subscribe(id, _) => id !in s.queues   // a fresh uuid
    case Consume(id) => id in s.queues && s.queues[id] != []
    case _ => true
  }

  function Do(s: State, op: Op): State
    requires Enabled(s, op)
  {
    match op
    case Subscribe(id, types) =>
      if |s.subscribers| >= s.maxConnections then s
      else s.(subscribers := s.subscribers[id := types], queues := s.queues[id := []])
    case Unsubscribe(id) => s.(subscribers := s.subscribers - {id})
    case Publish(e) =>
      s.(queues := map id | id in s.queues :: if Receives(s, id, e) then Deliver(s.queues[id], e, s.queueSize) else s.queues[id])
    case Consume(id) => s.(queues := s.queues[id := s.queues[id][1..]])
  }

  // ----- runs and what they say of one subscriber ----------------------------

  /** The state after the operations, or None where one of them is not possible. */
  function Run(s0: State, ops: seq<Op>): Option<State> {
    if ops == [] then Some(s0)
    else
      match Run(s0, ops[..|ops| - 1])
      case None => None
      case Some(s) => if Enabled(s, ops[|ops| - 1]) then Some(Do(s, ops[|ops| - 1])) else None
  }

  predicate Runs(s0: State, ops: seq<Op>) { Run(s0, ops).Some? }

  function After(s0: State, ops: seq<Op>): State
    requires Runs(s0, ops)
  {
    Run(s0, ops).value
  }

  /** What one operation adds to the matching events, to what was received and to the drops. */
  function MatchedBy(s: State, op: Op, id: SubId): seq<Event> {
    if op.Publish? && Receives(s, id, op.event) then [op.event] else []
  }

  function ReceivedBy(s: State, op: Op, id: SubId): seq<Event>
    requires Enabled(s, op)
  {
    if op == Consume(id) then [s.queues[id][0]] else []
  }

  function DroppedBy(s: State, op: Op, id: SubId): nat {
    if op.Publish? && Receives(s, id, op.event) && Full(s.queues[id], s.queueSize) then 1 else 0
  }

  /** The matching events published while `id` was subscribed. */
  function Matched(s0: State, ops: seq<Op>, id: SubId): seq<Event>
    requires Runs(s0, ops)
  {
    if ops == [] then []
    else
      var front, last := ops[..|ops| - 1], ops[|ops| - 1];
      Matched(s0, front, id) + MatchedBy(After(s0, front), last, id)
  }

  /** What the consumer took, in order. */
  function Received(s0: State, ops: seq<Op>, id: SubId): seq<Event>
    requires Runs(s0, ops)
  {
    if ops == [] then []
    else
      var front, last := ops[..|ops| - 1], ops[|ops| - 1];
      Received(s0, front, id) + ReceivedBy(After(s0, front), last, id)
  }

  /** How often delivery found the queue full. */
  function Dropped(s0: State, ops: seq<Op>, id: SubId): nat
    requires Runs(s0, ops)
  {
    if ops == [] then 0
    else
      var front, last := ops[..|ops| - 1], ops[|ops| - 1];
      Dropped(s0, front, id) + DroppedBy(After(s0, front), last, id)
  }

  /** `a` is `b` with some elements left out. */
  predicate Subsequence<T(==)>(a: seq<T>, b: seq<T>) {
    a == [] || (b != [] && ((a[|a| - 1] == b[|b| - 1] && Subsequence(a[..|a| - 1], b[..|b| - 1]))
                            || Subsequence(a, b[..|b| - 1])))
  }

  lemma SubsequenceSnoc<T>(a: seq<T>, b: seq<T>, x: T)
    requires Subsequence(a, b)
    ensures Subsequence(a + [x], b + [x]) && Subsequence(a, b + [x])
  {
    assert (a + [x])[..|a|] == a && (b + [x])[..|b|] == b;
  }

  lemma {:induction false} SubsequenceExtend<T>(a: seq<T>, b: seq<T>, c: seq<T>)
    requires Subsequence(a, b)
    ensures Subsequence(a + c, b + c)
  {
    hide Subsequence;
    if c == [] {
      assert a + c == a && b + c == b;
    } else {
      var n := |c| - 1;
      SubsequenceExtend(a, b, c[..n]);
      SubsequenceSnoc(a + c[..n], b + c[..n], c[n]);
      LastApart(a, c);
      LastApart(b, c);
    }
  }

  lemma LastApart<T>(a: seq<T>, c: seq<T>)
    requires c != []
    ensures a + c == a + c[..|c| - 1] + [c[|c| - 1]]
  {
  }

  /** The account of one subscriber: pending is a suffix of what matched, within the limit; what
      was received is an in-order part of the rest; nothing else was lost than what was dropped. */
  predicate Accounts(q: seq<Event>, matched: seq<Event>, received: seq<Event>, dropped: nat, size: int) {
    && |q| <= |matched| && q == matched[|matched| - |q|..]
    && (size > 0 ==> |q| <= size)
    && (size <= 0 ==> dropped == 0)
    && |received| + dropped + |q| == |matched|
    && Subsequence(received, matched[..|matched| - |q|])
  }

  lemma DeliveryAccounts(q: seq<Event>, matched: seq<Event>, received: seq<Event>, dropped: nat, size: int, e: Event)
    requires Accounts(q, matched, received, dropped, size)
    ensures Accounts(Deliver(q, e, size), matched + [e], received, dropped + if Full(q, size) then 1 else 0, size)
  {
    var q', matched' := Deliver(q, e, size), matched + [e];
    var k := |matched| - |q|;
    if Full(q, size) {
      assert matched'[..k + 1] == matched[..k] + [matched[k]];
      SubsequenceSnoc(received, matched[..k], matched[k]);
    } else {
      assert matched'[..k] == matched[..k];
    }
  }

  lemma ConsumptionAccounts(q: seq<Event>, matched: seq<Event>, received: seq<Event>, dropped: nat, size: int)
    requires Accounts(q, matched, received, dropped, size) && q != []
    ensures Accounts(q[1..], matched, received + [q[0]], dropped, size)
  {
    var k := |matched| - |q|;
    assert matched[..k + 1] == matched[..k] + [q[0]];
    SubsequenceSnoc(received, matched[..k], q[0]);
  }

  lemma EmptyAccounts(size: int)
    ensures Accounts([], [], [], 0, size)
  {
  }

  predicate SubscribersHaveQueues(s: State) { s.subscribers.Keys <= s.queues.Keys }

  /** The account of `id` in a state; before it subscribes there is nothing to account for. */
  predicate AccountOf(s: State, id: SubId, matched: seq<Event>, received: seq<Event>, dropped: nat) {
    if id in s.queues then Accounts(s.queues[id], matched, received, dropped, s.queueSize)
    else matched == [] && received == [] && dropped == 0
  }

  lemma StepAccounts(s: State, op: Op, id: SubId, matched: seq<Event>, received: seq<Event>, dropped: nat)
    requires Enabled(s, op) && AccountOf(s, id, matched, received, dropped)
    ensures AccountOf(Do(s, op), id, matched + MatchedBy(s, op, id), received + ReceivedBy(s, op, id), dropped + DroppedBy(s, op, id))
  {
    hide Accounts, Deliver, Full, Matches;
    assert received + [] == received && matched + [] == matched;
    EmptyAccounts(s.queueSize);
    if op.Publish? && Receives(s, id, op.event) {
      DeliveryAccounts(s.queues[id], matched, received, dropped, s.queueSize, op.event);
    } else if op == Consume(id) {
      ConsumptionAccounts(s.queues[id], matched, received, dropped, s.queueSize);
    }
  }

  lemma StepKeepsQueues(s: State, op: Op)
    requires Enabled(s, op) && SubscribersHaveQueues(s)
    ensures SubscribersHaveQueues(Do(s, op)) && Do(s, op).queueSize == s.queueSize
  {
  }

  lemma {:induction false} RunAccounts(max: int, size: int, ops: seq<Op>, id: SubId)
    requires Runs(Init(max, size), ops)
    ensures var s0 := Init(max, size);
            var s := After(s0, ops);
            && s.queueSize == size && SubscribersHaveQueues(s)
            && AccountOf(s, id, Matched(s0, ops, id), Received(s0, ops, id), Dropped(s0, ops, id))
  {
    hide AccountOf, Do, MatchedBy, ReceivedBy, DroppedBy, Enabled;
    var s0 := Init(max, size);
    if ops == [] {
      assert AccountOf(s0, id, [], [], 0) by { NothingYet(max, size, id); }
    } else {
      var front, last := ops[..|ops| - 1], ops[|ops| - 1];
      RunAccounts(max, size, front, id);
      StepKeepsQueues(After(s0, front), last);
      StepAccounts(After(s0, front), last, id, Matched(s0, front, id), Received(s0, front, id), Dropped(s0, front, id));
    }
  }

  lemma NothingYet(max: int, size: int, id: SubId)
    ensures AccountOf(Init(max, size), id, [], [], 0)
  {
  }

  // ----- the matching stream, told from the operations alone ---------------------

  /** Who holds a connection: a subscribe takes one while there is one left, an unsubscribe gives
      it back. */
  function Live(max: int, ops: seq<Op>): set<SubId> {
    if ops == [] then {}
    else
      var before, last := Live(max, ops[..|ops| - 1]), ops[|ops| - 1];
      match last
      case Subscribe(id, _) => if |before| < max then before + {id} else before
      case Unsubscribe(id) => before - {id}
      case _ => before
  }

  /** The operation at `i` subscribed `id` to `types`, and nothing has unsubscribed it since. */
  predicate Open(max: int, ops: seq<Op>, id: SubId, types: Filter, i: nat) {
    i < |ops| && ops[i] == Subscribe(id, types) && |Live(max, ops[..i])| < max
    && forall k :: i < k < |ops| ==> ops[k] != Unsubscribe(id)
  }

  /** An open subscription asks for the kind: by no filter, by the empty one, or by name. */
  ghost predicate Asked(max: int, ops: seq<Op>, id: SubId, kind: string) {
    exists i: nat, types :: Open(max, ops, id, types, i) && (types.Some? && types.value != {} ==> kind in types.value)
  }

  /** The events published while an open subscription of `id` asked for their kind. */
  ghost function Due(max: int, ops: seq<Op>, id: SubId): seq<Event> {
    if ops == [] then []
    else
      var front, last := ops[..|ops| - 1], ops[|ops| - 1];
      Due(max, front, id) + if last.Publish? && Asked(max, front, id, last.event.kind) then [last.event] else []
  }

  lemma OpenStep(max: int, front: seq<Op>, last: Op, id: SubId, types: Filter, i: nat)
    ensures i < |front| ==> (Open(max, front + [last], id, types, i) <==> Open(max, front, id, types, i) && last != Unsubscribe(id))
    ensures i == |front| ==> (Open(max, front + [last], id, types, i) <==> last == Subscribe(id, types) && |Live(max, front)| < max)
  {
    var ops := front + [last];
    assert i <= |front| ==> ops[..i] == front[..i];
    assert front[..|front|] == front;
    assert ops[|front|] == last;
    assert forall k :: 0 <= k < |front| ==> ops[k] == front[k];
    hide Live;
  }

  lemma {:induction false} TableKeys(max: int, size: int, ops: seq<Op>)
    requires Runs(Init(max, size), ops)
    ensures var s := After(Init(max, size), ops);
            s.subscribers.Keys == Live(max, ops) && s.maxConnections == max && s.queueSize == size && SubscribersHaveQueues(s)
  {
    if ops != [] {
      TableKeys(max, size, ops[..|ops| - 1]);
    }
  }

  /** The table holds `id` with the filter of its open subscription, and only then. */
  ghost predicate Filed(s: State, max: int, ops: seq<Op>, id: SubId) {
    && (id in s.subscribers ==> exists i: nat :: Open(max, ops, id, s.subscribers[id], i))
    && (forall i: nat, types :: Open(max, ops, id, types, i) ==> id in s.subscribers && s.subscribers[id] == types)
  }

  lemma FiledStep(s: State, max: int, front: seq<Op>, last: Op, id: SubId)
    requires s.subscribers.Keys == Live(max, front) && s.maxConnections == max && SubscribersHaveQueues(s)
    requires Enabled(s, last) && Filed(s, max, front, id)
    ensures Filed(Do(s, last), max, front + [last], id)
  {
    hide Live, Open;
    var s' := Do(s, last);
    assert |s.subscribers| == |s.subscribers.Keys|;
    if id in s'.subscribers {
      if id in s.subscribers {
        var i: nat :| Open(max, front, id, s.subscribers[id], i);
        OpenBelow(max, front, id, s.subscribers[id], i);
        OpenStep(max, front, last, id, s.subscribers[id], i);
      } else {
        OpenStep(max, front, last, id, s'.subscribers[id], |front|);
      }
    }
    forall i: nat, types | Open(max, front + [last], id, types, i) ensures id in s'.subscribers && s'.subscribers[id] == types {
      OpenBelow(max, front + [last], id, types, i);
      OpenStep(max, front, last, id, types, i);
    }
  }

  lemma OpenBelow(max: int, ops: seq<Op>, id: SubId, types: Filter, i: nat)
    requires Open(max, ops, id, types, i)
    ensures i < |ops|
  {
  }

  lemma NothingFiled(max: int, size: int, id: SubId)
    ensures Filed(Init(max, size), max, [], id)
  {
  }

  /** The subscriber table is what the operations say: who holds a connection, and with what filter. */
  lemma {:induction false} TableIsFiled(max: int, size: int, ops: seq<Op>, id: SubId)
    requires Runs(Init(max, size), ops)
    ensures Filed(After(Init(max, size), ops), max, ops, id)
  {
    hide Filed, Do, Enabled, Live;
    if ops == [] {
      NothingFiled(max, size, id);
    } else {
      var front, last := ops[..|ops| - 1], ops[|ops| - 1];
      assert ops == front + [last];
      TableIsFiled(max, size, front, id);
      TableKeys(max, size, front);
      FiledStep(After(Init(max, size), front), max, front, last, id);
    }
  }

  lemma {:induction false} MatchedIsDue(max: int, size: int, ops: seq<Op>, id: SubId)
    requires Runs(Init(max, size), ops)
    ensures Matched(Init(max, size), ops, id) == Due(max, ops, id)
  {
    hide Open, Do, Enabled;
    if ops != [] {
      var front, last := ops[..|ops| - 1], ops[|ops| - 1];
      MatchedIsDue(max, size, front, id);
      TableIsFiled(max, size, front, id);
      TableKeys(max, size, front);
    }
  }

  /** For every subscriber in every run: its queue is exactly the last of the events due to it, told
      from the operations alone, and never over the limit; what it received followed by what is
      pending is an in-order part of them; received, pending and dropped add up to them. */
  lemma SubscriberHistory(max: int, size: int, ops: seq<Op>, id: SubId)
    requires Runs(Init(max, size), ops) && id in After(Init(max, size), ops).queues
    ensures var s0 := Init(max, size);
            var q, due := After(s0, ops).queues[id], Due(max, ops, id);
            && |q| <= |due| && q == due[|due| - |q|..]
            && (size > 0 ==> |q| <= size)
            && Subsequence(Received(s0, ops, id) + q, due)
            && |Received(s0, ops, id)| + |q| + Dropped(s0, ops, id) == |due|
            && (size <= 0 ==> Received(s0, ops, id) + q == due)
  {
    hide Subsequence, Run, Matched, Received, Dropped, Due;
    MatchedIsDue(max, size, ops, id);
    RunAccounts(max, size, ops, id);
    var s0 := Init(max, size);
    var q, matched, received := After(s0, ops).queues[id], Matched(s0, ops, id), Received(s0, ops, id);
    var head := matched[..|matched| - |q|];
    SubsequenceExtend(received, head, q);
    assert head + q == matched;
    if size <= 0 {
      FullSubsequence(received, head);
    }
  }

  lemma {:induction false} LiveBounded(max: int, ops: seq<Op>)
    ensures |Live(max, ops)| <= if max > 0 then max else 0
  {
    if ops != [] {
      LiveBounded(max, ops[..|ops| - 1]);
    }
  }

  /** The connection limit in every run: it is never exceeded; a fresh subscriber gets a connection
      if and only if the limit is not reached; and one that leaves makes room for the next. */
  lemma ConnectionLimit(max: int, size: int, ops: seq<Op>, id: SubId, types: Filter, gone: SubId)
    requires Runs(Init(max, size), ops) && Enabled(After(Init(max, size), ops), Subscribe(id, types))
    ensures var s := After(Init(max, size), ops);
            && |s.subscribers| <= (if max > 0 then max else 0)
            && (id in Do(s, Subscribe(id, types)).subscribers <==> |s.subscribers| < max)
            && (id in Do(s, Subscribe(id, types)).queues <==> |s.subscribers| < max)
            && (gone in s.subscribers ==>
                  var s1 := Do(s, Unsubscribe(gone));
                  && gone !in s1.subscribers && |s1.subscribers| == |s.subscribers| - 1
                  && Enabled(s1, Subscribe(id, types)) && id in Do(s1, Subscribe(id, types)).subscribers)
  {
    TableKeys(max, size, ops);
    LiveBounded(max, ops);
    var s := After(Init(max, size), ops);
    hide Run, Live;
    var s1 := Do(s, Unsubscribe(gone));
    assert s1.subscribers.Keys == s.subscribers.Keys - {gone};
    assert |s.subscribers| == |s.subscribers.Keys| && |s1.subscribers| == |s1.subscribers.Keys|;
  }

  lemma {:induction false} FullSubsequence<T>(a: seq<T>, b: seq<T>)
    requires Subsequence(a, b) && |a| == |b|
    ensures a == b
  {
    if a != [] {
      if Subsequence(a, b[..|b| - 1]) {
        SubsequenceShorter(a, b[..|b| - 1]);
      }
      FullSubsequence(a[..|a| - 1], b[..|b| - 1]);
      assert a == a[..|a| - 1] + [a[|a| - 1]];
    }
  }

  lemma {:induction false} SubsequenceShorter<T>(a: seq<T>, b: seq<T>)
    requires Subsequence(a, b)
    ensures |a| <= |b|
  {
    if a != [] {
      if Subsequence(a, b[..|b| - 1]) {
        SubsequenceShorter(a, b[..|b| - 1]);
      } else {
        SubsequenceShorter(a[..|a| - 1], b[..|b| - 1]);
      }
    }
  }

  class EventBroker {
    var maxConnections: int
    const queueSize: int
    var subscribers: map<SubId, Filter>
    var queues: map<SubId, seq<Event>>

    function View(): State
      reads this
    {
      State(maxConnections, queueSize, subscribers, queues)
    }

    constructor (maxConnections: int, queueSize: int)
      ensures View() == Init(maxConnections, queueSize)
    {
      this.maxConnections, this.queueSize := maxConnections, queueSize;
      subscribers, queues := map[], map[];
    }

    /** False stands for the ConnectionError at the connection limit. */
    method AddSubscriber(id: SubId, types: Filter) returns (ok: bool)
      requires id !in queues
      modifies this`subscribers, this`queues
      ensures View() == Do(old(View()), Subscribe(id, types))
      ensures ok <==> |old(subscribers)| < maxConnections
    {
      if |subscribers| >= maxConnections {
        return false;
      }
      queues := queues[id := []];
      subscribers := subscribers[id := types];
      return true;
    }

    method RemoveSubscriber(id: SubId) returns (removed: bool)
      modifies this`subscribers
      ensures View() == Do(old(View()), Unsubscribe(id))
      ensures removed <==> id in old(subscribers)
      ensures id !in subscribers && forall other :: other in old(subscribers) && other != id ==> other in subscribers
    {
      removed := id in subscribers;
      subscribers := subscribers - {id};
    }

    /** The delivery loop over the subscribers, in whatever order they are listed. */
    method PublishEvent(event: Event)
      requires SubscribersHaveQueues(View())
      modifies this`queues
      ensures View() == Do(old(View()), Publish(event))
      ensures forall id :: id in subscribers ==>
                var types := subscribers[id];
                queues[id] == if types.Some? && types.value != {} && event.kind !in types.value then old(queues)[id]
                              else Deliver(old(queues)[id], event, queueSize)
    {
      var rest := subscribers.Keys;
      while rest != {}
        invariant rest <= subscribers.Keys <= queues.Keys && queues.Keys == old(queues).Keys
        invariant forall id :: id in queues ==>
                    queues[id] == if id !in rest && Receives(old(View()), id, event)
                                  then Deliver(old(queues)[id], event, queueSize) else old(queues)[id]
        decreases rest
      {
        var id :| id in rest;
        rest := rest - {id};
        var types := subscribers[id];
        if types.Some? && types.value != {} && event.kind !in types.value {
          continue;
        }
        if queueSize > 0 && |queues[id]| >= queueSize {
          queues := queues[id := queues[id][1..]];
        }
        queues := queues[id := queues[id] + [event]];
      }
    }

    method Get(id: SubId) returns (event: Event)
      requires id in queues && queues[id] != []
      modifies this`queues
      ensures View() == Do(old(View()), Consume(id)) && event == old(queues)[id][0]
    {
      event := queues[id][0];
      queues := queues[id := queues[id][1..]];
    }
  }
}
