/** The single-use ticket table.  Operations are synchronous, so a run is a sequence of them;
    the clock they sample never goes backwards and a minted ticket is fresh. */
module Tickets {
  import opened Prelude

  type Ticket = string
  type Claims = map<string, string>
  type Time = real

  datatype Entry = Entry(expiresAt: Time, claims: Claims)

  type Table = map<Ticket, Entry>

  datatype Op =
    | Issue(at: Time, ticket: Ticket, claims: Claims)
    | Redeem(at: Time, ticket: Ticket)
    | Clear(at: Time)

  datatype Config = Config(ttl: Time, cap: int)

  // ----- the table the code keeps --------------------------------------------

  function Purged(pending: Table, now: Time): Table { map t | t in pending && now < pending[t].expiresAt :: pending[t] }

  predicate HasRoom(c: Config, pending: Table, now: Time) { |Purged(pending, now)| < c.cap }

  function Step(c: Config, pending: Table, op: Op): Table {
    match op
    case Issue(at, t, claims) =>
      if HasRoom(c, pending, at) then Purged(pending, at)[t := Entry(at + c.ttl, claims)] else Purged(pending, at)
    case Redeem(_, t) => pending - {t}
    case Clear(_) => map[]
  }

  /** The claims a redeem returns, or None. */
  function Redeemed(pending: Table, at: Time, t: Ticket): Option<Claims> {
    if t in pending && at < pending[t].expiresAt then Some(pending[t].claims) else None
  }

  function After(c: Config, ops: seq<Op>): Table {
    if ops == [] then map[] else Step(c, After(c, ops[..|ops| - 1]), ops[|ops| - 1])
  }

  /** Clock readings do not decrease. */
  predicate Ordered(ops: seq<Op>) { forall i, j :: 0 <= i < j < |ops| ==> ops[i].at <= ops[j].at }

  /** No ticket is minted twice. */
  predicate Fresh(ops: seq<Op>) {
    forall i, j :: 0 <= i < j < |ops| && ops[i].Issue? && ops[j].Issue? ==> ops[i].ticket != ops[j].ticket
  }

  // ----- the same table without any purge ------------------------------------

  /** What has been issued and neither redeemed nor cleared since, expired or not. */
  function Outstanding(c: Config, ops: seq<Op>): Table {
    if ops == [] then map[]
    else
      var front, last := ops[..|ops| - 1], ops[|ops| - 1];
      var m := Outstanding(c, front);
      match last
      case Issue(at, t, claims) => if Issued(c, front, at) then m[t := Entry(at + c.ttl, claims)] else m
      case Redeem(_, t) => m - {t}
      case Clear(_) => map[]
  }

  /** Whether an issue at that time goes through. */
  predicate Issued(c: Config, front: seq<Op>, at: Time) { HasRoom(c, After(c, front), at) }

  ghost predicate Agrees(pending: Table, outstanding: Table, now: Time) {
    forall later: Time :: now <= later ==> Purged(pending, later) == Purged(outstanding, later)
  }

  lemma PurgeTwice(m: Table, now: Time, later: Time)
    requires now <= later
    ensures Purged(Purged(m, now), later) == Purged(m, later)
  {
  }

  /** Purging early loses nothing: at any later time the unexpired entries of the kept table are
      those of the table that is never purged. */
  lemma {:induction false} PurgingIsInvisible(c: Config, ops: seq<Op>, now: Time)
    requires Ordered(ops) && forall i :: 0 <= i < |ops| ==> ops[i].at <= now
    ensures Agrees(After(c, ops), Outstanding(c, ops), now)
  {
    if ops != [] {
      var front, last := ops[..|ops| - 1], ops[|ops| - 1];
      PurgingIsInvisible(c, front, last.at);
      var p, m := After(c, front), Outstanding(c, front);
      forall later: Time | now <= later ensures Purged(After(c, ops), later) == Purged(Outstanding(c, ops), later) {
        StepAgrees(c, p, m, last, later);
      }
    }
  }

  lemma StepAgrees(c: Config, pending: Table, m: Table, op: Op, later: Time)
    requires op.at <= later && Purged(pending, later) == Purged(m, later)
    ensures var m' := match op
                      case Issue(at, t, claims) => (if HasRoom(c, pending, at) then m[t := Entry(at + c.ttl, claims)] else m)
                      case Redeem(_, t) => m - {t}
                      case Clear(_) => map[];
            Purged(Step(c, pending, op), later) == Purged(m', later)
  {
    hide Purged, HasRoom;
    PurgeTwice(pending, op.at, later);
    match op
    case Issue(at, t, claims) =>
      PurgedUpdate(Purged(pending, at), t, Entry(at + c.ttl, claims), later);
      PurgedUpdate(m, t, Entry(at + c.ttl, claims), later);
    case Redeem(_, t) =>
      PurgedWithout(pending, t, later);
      PurgedWithout(m, t, later);
    case Clear(_) =>
  }

  lemma PurgedWithout(m: Table, t: Ticket, later: Time)
    ensures Purged(m - {t}, later) == Purged(m, later) - {t}
  {
  }

  lemma PurgedUpdate(m: Table, t: Ticket, e: Entry, later: Time)
    ensures Purged(m[t := e], later) == if later < e.expiresAt then Purged(m, later)[t := e] else Purged(m, later) - {t}
  {
  }

  // ----- what holds of every run ---------------------------------------------

  /** `issue` fails exactly when the cap's worth of unexpired tickets is outstanding, and the
      table never holds more than the cap. */
  lemma IssueFailsIffFull(c: Config, ops: seq<Op>, at: Time)
    requires Ordered(ops) && forall i :: 0 <= i < |ops| ==> ops[i].at <= at
    ensures !Issued(c, ops, at) <==> |Purged(Outstanding(c, ops), at)| >= c.cap
    ensures |After(c, ops)| <= if c.cap > 0 then c.cap else 0
  {
    PurgingIsInvisible(c, ops, at);
    NeverOverCap(c, ops);
  }

  lemma {:induction false} NeverOverCap(c: Config, ops: seq<Op>)
    ensures |After(c, ops)| <= if c.cap > 0 then c.cap else 0
  {
    if ops != [] {
      var front, last := ops[..|ops| - 1], ops[|ops| - 1];
      NeverOverCap(c, front);
      var p := After(c, front);
      match last
      case Issue(at, t, claims) =>
        var kept := Purged(p, at);
        Fewer(kept, p);
        assert kept[t := Entry(at + c.ttl, claims)].Keys == kept.Keys + {t};
      case Redeem(_, t) => Fewer(p - {t}, p);
      case Clear(_) =>
    }
  }

  lemma Fewer(a: Table, b: Table)
    requires a.Keys <= b.Keys
    ensures |a| <= |b|
  {
    SubsetSize(a.Keys, b.Keys);
  }

  lemma {:induction false} SubsetSize(a: set<Ticket>, b: set<Ticket>)
    requires a <= b
    ensures |a| <= |b|
  {
    if a != {} {
      var x :| x in a;
      SubsetSize(a - {x}, b - {x});
    }
  }

  /** The issue an outstanding entry comes from. */
  predicate CameFrom(c: Config, ops: seq<Op>, t: Ticket, e: Entry, i: nat) {
    && i < |ops| && ops[i].Issue? && ops[i].ticket == t && Issued(c, ops[..i], ops[i].at)
    && e == Entry(ops[i].at + c.ttl, ops[i].claims)
    && forall k :: i < k < |ops| ==> !ops[k].Clear? && !(ops[k].Redeem? && ops[k].ticket == t)
  }

  lemma {:induction false} OutstandingCameFrom(c: Config, ops: seq<Op>, t: Ticket) returns (i: nat)
    requires t in Outstanding(c, ops)
    ensures CameFrom(c, ops, t, Outstanding(c, ops)[t], i)
  {
    hide Issued, After;
    var n := |ops| - 1;
    var front, last := ops[..n], ops[n];
    if last.Issue? && last.ticket == t && Issued(c, front, last.at) {
      i := n;
    } else {
      i := OutstandingCameFrom(c, front, t);
      assert front[..i] == ops[..i];
    }
  }

  lemma {:induction false} StillOutstanding(c: Config, ops: seq<Op>, t: Ticket, e: Entry, i: nat)
    requires Fresh(ops) && CameFrom(c, ops, t, e, i)
    ensures t in Outstanding(c, ops) && Outstanding(c, ops)[t] == e
    decreases |ops|
  {
    var n := |ops| - 1;
    if i < n {
      var front := ops[..n];
      assert front[..i] == ops[..i];
      StillOutstanding(c, front, t, e, i);
    }
  }

  /** A redeem succeeds with some claims exactly when an earlier issue of that ticket went
      through with those claims, has not expired, and the ticket has neither been redeemed nor
      the table cleared since. */
  lemma RedeemIff(c: Config, ops: seq<Op>, at: Time, t: Ticket, claims: Claims)
    requires Ordered(ops) && Fresh(ops) && forall i :: 0 <= i < |ops| ==> ops[i].at <= at
    ensures Redeemed(After(c, ops), at, t) == Some(claims) <==>
            exists i: nat, e :: CameFrom(c, ops, t, e, i) && at < e.expiresAt && e.claims == claims
  {
    PurgingIsInvisible(c, ops, at);
    var p, m := After(c, ops), Outstanding(c, ops);
    assert Purged(p, at) == Purged(m, at);
    assert t in Purged(p, at) <==> t in p && at < p[t].expiresAt;
    if Redeemed(p, at, t) == Some(claims) {
      assert t in Purged(m, at) && m[t] == p[t];
      var i := OutstandingCameFrom(c, ops, t);
    }
    forall i: nat, e | CameFrom(c, ops, t, e, i) && at < e.expiresAt && e.claims == claims
      ensures Redeemed(p, at, t) == Some(claims)
    {
      StillOutstanding(c, ops, t, e, i);
      assert t in Purged(m, at);
    }
  }

  /** The operation at index `j` redeems `t` successfully. */
  predicate Succeeds(c: Config, ops: seq<Op>, j: nat, t: Ticket) {
    j < |ops| && ops[j].Redeem? && ops[j].ticket == t && Redeemed(After(c, ops[..j]), ops[j].at, t).Some?
  }

  /** A success comes from one issue of the ticket, with no other redeem of it in between. */
  lemma IssueBehind(c: Config, ops: seq<Op>, t: Ticket, j: nat) returns (i: nat)
    requires Ordered(ops) && Fresh(ops) && Succeeds(c, ops, j, t)
    ensures i < j && ops[i].Issue? && ops[i].ticket == t
    ensures forall k :: i < k < j ==> !(ops[k].Redeem? && ops[k].ticket == t)
    ensures Issued(c, ops[..i], ops[i].at) && ops[j].at < ops[i].at + c.ttl
    ensures Redeemed(After(c, ops[..j]), ops[j].at, t) == Some(ops[i].claims)
  {
    hide After, Redeemed, Issued;
    var front := ops[..j];
    RedeemIff(c, front, ops[j].at, t, Redeemed(After(c, front), ops[j].at, t).value);
    var n: nat, e :| CameFrom(c, front, t, e, n) && ops[j].at < e.expiresAt
                     && Some(e.claims) == Redeemed(After(c, front), ops[j].at, t);
    i := n;
    assert front[..i] == ops[..i];
    forall k | i < k < j ensures !(ops[k].Redeem? && ops[k].ticket == t) { assert front[k] == ops[k]; }
  }

  lemma SecondFails(c: Config, ops: seq<Op>, t: Ticket, j: nat, k: nat)
    requires Ordered(ops) && Fresh(ops) && Succeeds(c, ops, j, t) && j < k
    ensures !Succeeds(c, ops, k, t)
  {
    hide After, Redeemed, Issued;
    if Succeeds(c, ops, k, t) {
      var i := IssueBehind(c, ops, t, j);
      var i' := IssueBehind(c, ops, t, k);
      assert false;
    }
  }

  /** A ticket is redeemed successfully at most once in any run. */
  lemma SingleUse(c: Config, ops: seq<Op>, t: Ticket, j: nat, k: nat)
    requires Ordered(ops) && Fresh(ops) && Succeeds(c, ops, j, t) && Succeeds(c, ops, k, t)
    ensures j == k
  {
    if j < k {
      SecondFails(c, ops, t, j, k);
    } else if k < j {
      SecondFails(c, ops, t, k, j);
    }
  }

  class SSETicketStore {
    const ttlSeconds: Time
    const maxPending: int
    var pending: Table

    constructor (ttlSeconds: Time, maxPending: int)
      ensures pending == map[] && this.ttlSeconds == ttlSeconds && this.maxPending == maxPending
    {
      this.ttlSeconds, this.maxPending, pending := ttlSeconds, maxPending, map[];
    }

    /** The two loops of `_purge_expired`: list the expired tickets, then delete them. */
    method PurgeExpired(now: Time)
      modifies this`pending
      ensures pending == Purged(old(pending), now)
    {
      var expired := set t | t in pending && now >= pending[t].expiresAt;
      while expired != {}
        invariant pending.Keys <= old(pending).Keys
        invariant forall t :: t in pending ==> pending[t] == old(pending)[t]
        invariant forall t :: t in old(pending) ==>
                                (t in pending <==> now < old(pending)[t].expiresAt || t in expired)
        decreases expired
      {
        var t :| t in expired;
        expired := expired - {t};
        pending := pending - {t};
      }
    }

    /** `ticket` is the minted token; false stands for TicketCapacityError. */
    method IssueTicket(now: Time, ticket: Ticket, claims: Claims) returns (ok: bool)
      modifies this`pending
      ensures pending == Step(Config(ttlSeconds, maxPending), old(pending), Issue(now, ticket, claims))
      ensures ok <==> HasRoom(Config(ttlSeconds, maxPending), old(pending), now)
    {
      PurgeExpired(now);
      if |pending| >= maxPending {
        return false;
      }
      pending := pending[ticket := Entry(now + ttlSeconds, claims)];
      return true;
    }

    method RedeemTicket(now: Time, ticket: Ticket) returns (claims: Option<Claims>)
      modifies this`pending
      ensures pending == Step(Config(ttlSeconds, maxPending), old(pending), Redeem(now, ticket))
      ensures claims == Redeemed(old(pending), now, ticket)
    {
      var entry := if ticket in pending then Some(pending[ticket]) else None;
      pending := pending - {ticket};
      if entry.None? || now >= entry.value.expiresAt {
        return None;
      }
      return Some(entry.value.claims);
    }

    method ClearAll(now: Time)
      modifies this`pending
      ensures pending == Step(Config(ttlSeconds, maxPending), old(pending), Clear(now))
    {
      pending := map[];
    }
  }
}
