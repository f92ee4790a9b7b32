/** The optimistic-concurrency patch of a custom resource: fetch, verify, apply on the fetched
    version, retry on conflict, against a server other writers use at any moment.  What the
    world does during an attempt (who writes, what fails, which reply is lost) is an input. */
module PatchLoop {
  import opened Prelude

  const MAX_ATTEMPTS: nat := 3
  const WORKSPACE_LABEL := "acm.aerospike.com/workspace"
  const CONFLICT := 409
  const TIMEOUT := 408

  datatype Obj = Obj(labels: map<string, string>, spec: map<string, string>)

  /** A merge patch of one map: a value to set, or None to delete. */
  type Changes = map<string, Option<string>>

  function MergeMap(m: map<string, string>, c: Changes): map<string, string> {
    (m - c.Keys) + map k | k in c && c[k].Some? :: c[k].value
  }

  function Merge(o: Obj, labels: Changes, spec: Changes): Obj {
    Obj(MergeMap(o.labels, labels), MergeMap(o.spec, spec))
  }

  function Look(m: map<string, string>, k: string): Option<string> { if k in m then Some(m[k]) else None }

  /** A patched key is set or gone as the patch says; every other one is as it was. */
  lemma MergedEach(o: Obj, labels: Changes, spec: Changes, k: string)
    ensures Look(Merge(o, labels, spec).labels, k) == if k in labels then labels[k] else Look(o.labels, k)
    ensures Look(Merge(o, labels, spec).spec, k) == if k in spec then spec[k] else Look(o.spec, k)
  {
  }

  datatype ApiError = ApiError(status: int)

  // ----- the server ------------------------------------------------------------

  /** One write the server accepted: whose, on what condition, and the object before and after. */
  datatype Write = Write(ours: bool, condition: Option<nat>, before: Obj, after: Obj)

  /** Its version moves with every write; `versioned` says whether replies carry it. */
  datatype Server = Server(obj: Obj, version: nat, versioned: bool, log: seq<Write>)

  /** What a fetch tells. */
  datatype Snapshot = Snapshot(obj: Obj, version: Option<nat>)

  /** What becomes of an apply the version check admits. */
  datatype Fate = Serve | Refuse(status: int) | Lose(status: int)

  datatype Reply = Refused | Delivered | Lost

  /** The world around one attempt. */
  datatype World = World(before: seq<Obj>, fetchFails: Option<int>, between: seq<Obj>, fate: Fate)

  predicate Admits(version: nat, condition: Option<nat>) { condition.None? || condition.value == version }

  function Stored(s: Server, ours: bool, condition: Option<nat>, after: Obj): Server {
    Server(after, s.version + 1, s.versioned, s.log + [Write(ours, condition, s.obj, after)])
  }

  /** Anyone else's writes. */
  function Others(s: Server, objs: seq<Obj>): Server {
    if objs == [] then s else Stored(Others(s, objs[..|objs| - 1]), false, None, objs[|objs| - 1])
  }

  function SnapshotOf(s: Server): Snapshot { Snapshot(s.obj, if s.versioned then Some(s.version) else None) }

  datatype Applied = Applied(server: Server, result: Result<Obj, ApiError>, reply: Reply)

  /** The patch call: a version mismatch is a conflict; a lost reply is some other error. */
  function Patched(s: Server, condition: Option<nat>, labels: Changes, spec: Changes, fate: Fate): Applied {
    if !Admits(s.version, condition) then Applied(s, Err(ApiError(CONFLICT)), Refused)
    else
      var s' := Stored(s, true, condition, Merge(s.obj, labels, spec));
      match fate
      case Refuse(status) => Applied(s, Err(ApiError(status)), Refused)
      case Lose(status) => Applied(s', Err(ApiError(if status == CONFLICT then TIMEOUT else status)), Lost)
      case Serve => Applied(s', Ok(s'.obj), Delivered)
  }

  // ----- one attempt, and the loop ---------------------------------------------

  /** What the patch body holds; `own` is a version the caller put there. */
  datatype Body = Body(labels: Changes, spec: Changes, own: Option<nat>)

  predicate WorkspaceIs(o: Obj, expected: Option<string>) {
    expected.Some? ==> WORKSPACE_LABEL in o.labels && o.labels[WORKSPACE_LABEL] == expected.value
  }

  /** The condition an attempt puts on its write. */
  function ConditionOf(fetched: Option<nat>, own: Option<nat>): Option<nat> { if fetched.Some? then fetched else own }

  /** One pass of the loop body: `fetched` is the server as the fetch found it, `reply` None if
      the attempt ended before the apply. */
  datatype Trial = Trial(server: Server, result: Result<Obj, ApiError>, fetched: Server, reply: Option<Reply>)

  function TrialOf(s: Server, body: Body, expected: Option<string>, w: World): Trial {
    var s1 := Others(s, w.before);
    if w.fetchFails.Some? then Trial(s1, Err(ApiError(w.fetchFails.value)), s1, None)
    else if !WorkspaceIs(s1.obj, expected) then Trial(s1, Err(ApiError(CONFLICT)), s1, None)
    else
      var a := Patched(Others(s1, w.between), ConditionOf(SnapshotOf(s1).version, body.own), body.labels, body.spec, w.fate);
      Trial(a.server, a.result, s1, Some(a.reply))
  }

  /** Only a conflict from the apply itself is tried again. */
  predicate Retried(t: Trial) { t.reply.Some? && t.result.Err? && t.result.error.status == CONFLICT }

  /** The trials from attempt `n` on. */
  function TrialsFrom(s: Server, body: Body, expected: Option<string>, worlds: seq<World>, n: nat): (ts: seq<Trial>)
    requires n < MAX_ATTEMPTS == |worlds|
    ensures 1 <= |ts| <= MAX_ATTEMPTS - n
    decreases MAX_ATTEMPTS - n
  {
    var t := TrialOf(s, body, expected, worlds[n]);
    if Retried(t) && n + 1 < MAX_ATTEMPTS then [t] + TrialsFrom(t.server, body, expected, worlds, n + 1) else [t]
  }

  function Last<T>(ts: seq<T>): T
    requires ts != []
  {
    ts[|ts| - 1]
  }

  // ----- what one write of ours can be ------------------------------------------

  function Ours(log: seq<Write>): nat {
    if log == [] then 0 else Ours(log[..|log| - 1]) + if log[|log| - 1].ours then 1 else 0
  }

  lemma OursSnoc(log: seq<Write>, w: Write)
    ensures Ours(log + [w]) == Ours(log) + if w.ours then 1 else 0
  {
    assert (log + [w])[..|log|] == log;
  }

  lemma {:induction false} OthersFacts(s: Server, objs: seq<Obj>)
    ensures var s' := Others(s, objs);
            && Ours(s'.log) == Ours(s.log) && s'.version == s.version + |objs| && s'.versioned == s.versioned
            && s'.obj == if objs == [] then s.obj else Last(objs)
  {
    if objs != [] {
      var front := Others(s, objs[..|objs| - 1]);
      OthersFacts(s, objs[..|objs| - 1]);
      OursSnoc(front.log, Write(false, None, front.obj, Last(objs)));
    }
  }

  /** Whether the write is sure to land on the fetched object: the fetch reported the version, or
      the body brought one that is not ahead of the server. */
  predicate Guarded(fetched: Server, body: Body) {
    fetched.versioned || (body.own.Some? && body.own.value <= fetched.version)
  }

  predicate Wrote(t: Trial) { t.reply == Some(Delivered) || t.reply == Some(Lost) }

  /** What the write of a trial is: the patch merged into what was there, on the right condition,
      after a fetch that passed the check; and, guarded, what was there is what was fetched. */
  predicate RightWrite(t: Trial, body: Body, expected: Option<string>) {
    && t.server.log != []
    && var w := Last(t.server.log);
       && w.ours && w.after == Merge(w.before, body.labels, body.spec) && t.server.obj == w.after
       && w.condition == ConditionOf(SnapshotOf(t.fetched).version, body.own)
       && WorkspaceIs(t.fetched.obj, expected)
       && (Guarded(t.fetched, body) ==> w.before == t.fetched.obj)
  }

  predicate Landed(reply: Reply) { reply.Delivered? || reply.Lost? }

  lemma PatchedFacts(s: Server, condition: Option<nat>, labels: Changes, spec: Changes, fate: Fate)
    ensures var a := Patched(s, condition, labels, spec, fate);
            && Ours(a.server.log) == Ours(s.log) + (if Landed(a.reply) then 1 else 0)
            && (a.result.Ok? <==> a.reply.Delivered?)
            && (a.result.Ok? ==> a.result.value == a.server.obj)
            && (a.result.Err? && a.result.error.status == CONFLICT ==> !Landed(a.reply))
            && (Landed(a.reply) ==>
                  && Admits(s.version, condition) && a.server.log != []
                  && Last(a.server.log) == Write(true, condition, s.obj, Merge(s.obj, labels, spec))
                  && a.server.obj == Merge(s.obj, labels, spec))
  {
    hide Merge, Ours;
    OursSnoc(s.log, Write(true, condition, s.obj, Merge(s.obj, labels, spec)));
  }

  lemma TrialFacts(s: Server, body: Body, expected: Option<string>, w: World)
    ensures var t := TrialOf(s, body, expected, w);
            && Ours(t.server.log) == Ours(s.log) + (if Wrote(t) then 1 else 0)
            && (t.result.Ok? <==> t.reply == Some(Delivered))
            && (t.result.Ok? ==> t.result.value == t.server.obj)
            && (t.result.Err? && t.result.error.status == CONFLICT ==> !Wrote(t))
            && (Wrote(t) ==> RightWrite(t, body, expected))
  {
    hide Merge, WorkspaceIs, Ours, Others, Patched;
    var s1 := Others(s, w.before);
    OthersFacts(s, w.before);
    OthersFacts(s1, w.between);
    PatchedFacts(Others(s1, w.between), ConditionOf(SnapshotOf(s1).version, body.own), body.labels, body.spec, w.fate);
  }

  // ----- the loop as a whole ------------------------------------------------------

  lemma {:induction false} RefusedUntilLast(s: Server, body: Body, expected: Option<string>, worlds: seq<World>, n: nat)
    requires n < MAX_ATTEMPTS == |worlds|
    ensures var ts := TrialsFrom(s, body, expected, worlds, n);
            && (forall i :: 0 <= i < |ts| - 1 ==> Retried(ts[i]) && !Wrote(ts[i]))
            && Ours(Last(ts).server.log) == Ours(s.log) + (if Wrote(Last(ts)) then 1 else 0)
            && (Last(ts).result.Ok? <==> Last(ts).reply == Some(Delivered))
            && (Last(ts).result.Ok? ==> Last(ts).result.value == Last(ts).server.obj)
            && (Last(ts).result.Err? && Last(ts).result.error.status == CONFLICT ==> !Wrote(Last(ts)))
            && (Wrote(Last(ts)) ==> RightWrite(Last(ts), body, expected))
            && (Retried(Last(ts)) ==> |ts| == MAX_ATTEMPTS - n)
    decreases MAX_ATTEMPTS - n
  {
    hide TrialOf, RightWrite, Ours;
    TrialFacts(s, body, expected, worlds[n]);
    var t := TrialOf(s, body, expected, worlds[n]);
    if Retried(t) && n + 1 < MAX_ATTEMPTS {
      RefusedUntilLast(t.server, body, expected, worlds, n + 1);
      var rest := TrialsFrom(t.server, body, expected, worlds, n + 1);
      var ts := [t] + rest;
      assert Last(ts) == Last(rest);
      assert forall i :: 1 <= i < |ts| ==> ts[i] == rest[i - 1];
    }
  }

  /** What the check lets through, on the labels themselves: an object without the workspace label
      passes for no workspace, and no object passes for two. */
  lemma CheckedByLabel(o: Obj, workspace: string, other: string)
    ensures WorkspaceIs(o, Some(workspace)) <==>
            "acm.aerospike.com/workspace" in o.labels && o.labels["acm.aerospike.com/workspace"] == workspace
    ensures "acm.aerospike.com/workspace" !in o.labels ==> !WorkspaceIs(o, Some(workspace))
    ensures WorkspaceIs(o, Some(workspace)) && WorkspaceIs(o, Some(other)) ==> workspace == other
    ensures WorkspaceIs(o, None)
  {
  }

  /** An attempt that fetches an object of another workspace, or of none, ends with a conflict that is
      not tried again, and leaves the server to the other writers. */
  lemma ForeignIsRefused(s: Server, body: Body, workspace: string, w: World)
    requires w.fetchFails.None?
    requires var o := Others(s, w.before).obj;
             "acm.aerospike.com/workspace" in o.labels ==> o.labels["acm.aerospike.com/workspace"] != workspace
    ensures var t := TrialOf(s, body, Some(workspace), w);
            t.result == Err(ApiError(409)) && !Retried(t) && t.server == Others(s, w.before) && Ours(t.server.log) == Ours(s.log)
  {
    OthersFacts(s, w.before);
    CheckedByLabel(Others(s, w.before).obj, workspace, workspace);
    hide Others, WorkspaceIs, Merge, Ours;
  }

  lemma RightLabel(o: Obj, expected: Option<string>)
    requires WorkspaceIs(o, expected)
    ensures expected.Some? ==>
              "acm.aerospike.com/workspace" in o.labels && o.labels["acm.aerospike.com/workspace"] == expected.value
  {
  }

  /** Whatever the world does: at most three attempts, each but the last ended by a conflict of its
      apply, and at most one write of ours; the caller gets the object if and only if the last apply
      was delivered, and then it was written once; a conflict means nothing was written; an error
      hides our write exactly when the last apply was admitted and its reply lost; a write follows a
      fetch of an object with the expected workspace label; and a guarded write lands on that very
      object. */
  lemma PatchedOnceOrNot(s: Server, body: Body, expected: Option<string>, worlds: seq<World>)
    requires |worlds| == 3
    ensures var ts := TrialsFrom(s, body, expected, worlds, 0);
            var t := Last(ts);
            var written := Ours(t.server.log) - Ours(s.log);
            && 1 <= |ts| <= 3 && 0 <= written <= 1
            && (forall i :: 0 <= i < |ts| - 1 ==> ts[i].reply == Some(Refused) && ts[i].result == Err(ApiError(409)))
            && (t.reply == Some(Refused) && t.result == Err(ApiError(409)) ==> |ts| == 3)
            && (t.result.Ok? <==> t.reply == Some(Delivered))
            && (t.result.Ok? ==> written == 1 && t.result.value == t.server.obj)
            && (t.result.Err? && t.result.error.status == 409 ==> written == 0)
            && (t.result.Err? && written == 1 <==> t.reply == Some(Lost))
            && (written == 1 ==>
                  && RightWrite(t, body, expected)
                  && (expected.Some? ==>
                        var before, key := Last(t.server.log).before, "acm.aerospike.com/workspace";
                        && key in t.fetched.obj.labels && t.fetched.obj.labels[key] == expected.value
                        && (Guarded(t.fetched, body) ==> key in before.labels && before.labels[key] == expected.value)))
  {
    RefusedUntilLast(s, body, expected, worlds, 0);
    var t := Last(TrialsFrom(s, body, expected, worlds, 0));
    OnlyConflictsRetried(s, body, expected, worlds, 0);
    hide Ours, TrialsFrom, Merge;
    if Wrote(t) {
      RightLabel(t.fetched.obj, expected);
    }
    hide WorkspaceIs;
  }

  lemma {:induction false} OnlyConflictsRetried(s: Server, body: Body, expected: Option<string>, worlds: seq<World>, n: nat)
    requires n < MAX_ATTEMPTS == |worlds|
    ensures var ts := TrialsFrom(s, body, expected, worlds, n);
            forall i :: 0 <= i < |ts| && Retried(ts[i]) ==> ts[i].reply == Some(Refused) && ts[i].result == Err(ApiError(409))
    decreases MAX_ATTEMPTS - n
  {
    hide WorkspaceIs, Merge, Others;
    var t := TrialOf(s, body, expected, worlds[n]);
    if Retried(t) && n + 1 < MAX_ATTEMPTS {
      OnlyConflictsRetried(t.server, body, expected, worlds, n + 1);
    }
  }

  /** A reply is lost exactly when the fetch went through, its object passed the check, the
      version check admitted the write, and the world lost the reply. */
  lemma LostIff(s: Server, body: Body, expected: Option<string>, w: World)
    ensures TrialOf(s, body, expected, w).reply == Some(Lost) <==>
            var s1 := Others(s, w.before);
            && w.fetchFails.None? && WorkspaceIs(s1.obj, expected) && w.fate.Lose?
            && Admits(s1.version + |w.between|, ConditionOf(SnapshotOf(s1).version, body.own))
  {
    OthersFacts(Others(s, w.before), w.between);
    hide Others, WorkspaceIs, Merge;
  }

  /** A call that raises although its patch is in the store: the first apply is admitted, the
      store changes, and the reply is lost. */
  lemma RaisedButWritten(o: Obj, worlds: seq<World>)
    requires |worlds| == MAX_ATTEMPTS && worlds[0] == World([], None, [], Lose(504))
    ensures var s := Server(o, 7, true, []);
            var body := Body(map[], map["size" := Some("5")], None);
            var t := Last(TrialsFrom(s, body, None, worlds, 0));
            && t.result == Err(ApiError(504)) && Ours(t.server.log) == 1 && Ours(s.log) == 0
            && "size" in t.server.obj.spec && t.server.obj.spec["size"] == "5"
  {
    var s := Server(o, 7, true, []);
    var body := Body(map[], map["size" := Some("5")], None);
    LostIff(s, body, None, worlds[0]);
    TrialFacts(s, body, None, worlds[0]);
    assert Ours([]) == 0;
  }

  // ----- when a write is guarded ----------------------------------------------------

  predicate LandsOnFetched(t: Trial) { Wrote(t) ==> t.server.log != [] && Last(t.server.log).before == t.fetched.obj }

  function Changed(o: Obj): Obj {
    o.(spec := o.spec["changed" := if "changed" in o.spec then o.spec["changed"] + "!" else ""])
  }

  lemma ChangedDiffers(o: Obj)
    ensures Changed(o) != o
  {
    assert "changed" in o.spec ==> |Changed(o).spec["changed"]| != |o.spec["changed"]|;
    assert Changed(o).spec != o.spec;
  }

  /** Enough writes by others to bring the version to the body's own, or one where it has none. */
  lemma UnguardedMisses(s: Server, body: Body, expected: Option<string>) returns (between: seq<Obj>)
    requires WorkspaceIs(s.obj, expected) && !Guarded(s, body)
    ensures !LandsOnFetched(TrialOf(s, body, expected, World([], None, between, Serve)))
  {
    hide WorkspaceIs, Merge, Ours;
    var n := if body.own.Some? then body.own.value - s.version else 1;
    between := seq(n, i => Changed(s.obj));
    ChangedDiffers(s.obj);
    OthersFacts(s, between);
    assert Others(s, []) == s;
    hide Others, Changed;
    assert Last(between) == Changed(s.obj);
    assert Last(TrialOf(s, body, expected, World([], None, between, Serve)).server.log).before == Changed(s.obj);
  }

  /** After a fetch that passes the check, the write lands on the fetched object whatever others
      write meanwhile if and only if the fetch reported the version, or the body carries one that
      is not ahead of the server's. */
  lemma GuardedIff(s: Server, body: Body, expected: Option<string>)
    requires WorkspaceIs(s.obj, expected)
    ensures (forall between, fate :: LandsOnFetched(TrialOf(s, body, expected, World([], None, between, fate))))
            <==> Guarded(s, body)
  {
    forall between, fate | Guarded(s, body) ensures LandsOnFetched(TrialOf(s, body, expected, World([], None, between, fate))) {
      assert Others(s, []) == s;
      TrialFacts(s, body, expected, World([], None, between, fate));
      hide Others, Patched, Merge, WorkspaceIs;
    }
    hide LandsOnFetched, TrialOf, Guarded, WorkspaceIs;
    if !Guarded(s, body) {
      var between := UnguardedMisses(s, body, expected);
    }
  }

  // ----- the code -------------------------------------------------------------------

  class ApiServer {
    var obj: Obj
    var version: nat
    const versioned: bool
    ghost var log: seq<Write>

    ghost function View(): Server
      reads this
    {
      Server(obj, version, versioned, log)
    }

    constructor (obj: Obj, version: nat, versioned: bool)
      ensures View() == Server(obj, version, versioned, [])
    {
      this.obj, this.version, this.versioned, log := obj, version, versioned, [];
    }

    method Store(ghost ours: bool, ghost condition: Option<nat>, after: Obj)
      modifies this
      ensures View() == Stored(old(View()), ours, condition, after)
    {
      log := log + [Write(ours, condition, obj, after)];
      obj, version := after, version + 1;
    }

    method OtherWriters(objs: seq<Obj>)
      modifies this
      ensures View() == Others(old(View()), objs)
    {
      for i := 0 to |objs|
        invariant View() == Others(old(View()), objs[..i])
      {
        assert objs[..i + 1][..i] == objs[..i];
        Store(false, None, objs[i]);
      }
      assert objs[..|objs|] == objs;
    }

    method Fetch(fails: Option<int>) returns (r: Result<Snapshot, ApiError>)
      ensures r == if fails.Some? then Err(ApiError(fails.value)) else Ok(SnapshotOf(View()))
    {
      if fails.Some? {
        return Err(ApiError(fails.value));
      }
      return Ok(Snapshot(obj, if versioned then Some(version) else None));
    }

    method Apply(condition: Option<nat>, labels: Changes, spec: Changes, fate: Fate) returns (r: Result<Obj, ApiError>)
      modifies this
      ensures View() == Patched(old(View()), condition, labels, spec, fate).server
      ensures r == Patched(old(View()), condition, labels, spec, fate).result
    {
      if condition.Some? && condition.value != version {
        return Err(ApiError(CONFLICT));
      }
      if fate.Refuse? {
        return Err(ApiError(fate.status));
      }
      Store(true, condition, Merge(obj, labels, spec));
      if fate.Lose? {
        return Err(ApiError(if fate.status == CONFLICT then TIMEOUT else fate.status));
      }
      return Ok(obj);
    }
  }

  class Metadata {
    var resourceVersion: Option<nat>
    const labels: Changes

    constructor (resourceVersion: Option<nat>, labels: Changes)
      ensures this.resourceVersion == resourceVersion && this.labels == labels
    {
      this.resourceVersion, this.labels := resourceVersion, labels;
    }
  }

  /** The caller's patch dictionary; `metadata` may be missing. */
  class PatchBody {
    var metadata: Metadata?
    const spec: Changes

    ghost function View(): Body
      reads this, metadata
    {
      if metadata == null then Body(map[], spec, None) else Body(metadata.labels, spec, metadata.resourceVersion)
    }

    constructor (metadata: Metadata?, spec: Changes)
      ensures this.metadata == metadata && this.spec == spec
    {
      this.metadata, this.spec := metadata, spec;
    }

    method DeepCopy() returns (copy: PatchBody)
      ensures fresh(copy) && copy.View() == View()
      ensures copy.metadata == null <==> metadata == null
      ensures copy.metadata != null ==> fresh(copy.metadata)
    {
      var m: Metadata? := null;
      if metadata != null {
        m := new Metadata(metadata.resourceVersion, metadata.labels);
      }
      copy := new PatchBody(m, spec);
    }
  }

  /** A deep copy of the body carrying the fetched version, if there is one. */
  method BuildPayload(body: PatchBody, rv: Option<nat>) returns (condition: Option<nat>, labels: Changes, spec: Changes)
    ensures condition == ConditionOf(rv, body.View().own) && labels == body.View().labels && spec == body.View().spec
  {
    var payload := body.DeepCopy();
    if rv.Some? {
      if payload.metadata == null {
        payload.metadata := new Metadata(None, map[]);
      }
      payload.metadata.resourceVersion := rv;
    }
    spec := payload.spec;
    if payload.metadata == null {
      condition, labels := None, map[];
    } else {
      condition, labels := payload.metadata.resourceVersion, payload.metadata.labels;
    }
  }

  method LabelUnchanged(current: Obj, expected: Option<string>) returns (ok: bool)
    ensures ok <==> expected.None?
                    || ("acm.aerospike.com/workspace" in current.labels
                        && current.labels["acm.aerospike.com/workspace"] == expected.value)
  {
    if expected.None? {
      return true;
    }
    var actual := if WORKSPACE_LABEL in current.labels then Some(current.labels[WORKSPACE_LABEL]) else None;
    return actual == expected;
  }

  /** The loop body: `retriable` when the error came from the apply itself. */
  method Attempt(server: ApiServer, body: PatchBody, expected: Option<string>, w: World)
    returns (r: Result<Obj, ApiError>, retriable: bool)
    modifies server
    ensures var t := TrialOf(old(server.View()), body.View(), expected, w);
            server.View() == t.server && r == t.result && (retriable <==> t.reply.Some?)
  {
    hide Patched, Others;
    server.OtherWriters(w.before);
    var current := server.Fetch(w.fetchFails);
    if current.Err? {
      return Err(current.error), false;
    }
    var verified := LabelUnchanged(current.value.obj, expected);
    if !verified {
      return Err(ApiError(CONFLICT)), false;
    }
    var condition, labels, spec := BuildPayload(body, current.value.version);
    server.OtherWriters(w.between);
    r := server.Apply(condition, labels, spec, w.fate);
    retriable := true;
  }

  /** `_patch_with_resource_version`: it goes through exactly the trials of the specification,
      which `PatchedOnceOrNot` is about, and ends with the last one's result.  The body is not in
      the frame, and the statement after the loop is never reached. */
  method PatchWithResourceVersion(server: ApiServer, body: PatchBody, expected: Option<string>, worlds: seq<World>)
    returns (r: Result<Obj, ApiError>, attempts: nat)
    requires |worlds| == MAX_ATTEMPTS
    modifies server
    ensures var ts := TrialsFrom(old(server.View()), body.View(), expected, worlds, 0);
            attempts == |ts| && r == Last(ts).result && server.View() == Last(ts).server
  {
    hide TrialOf;
    attempts := 0;
    ghost var all := TrialsFrom(server.View(), body.View(), expected, worlds, 0);
    assert all[0..] == all;
    while attempts < MAX_ATTEMPTS
      invariant attempts < MAX_ATTEMPTS && attempts < |all|
      invariant all[attempts..] == TrialsFrom(server.View(), body.View(), expected, worlds, attempts)
    {
      ghost var rest := all[attempts..];
      var retriable: bool;
      r, retriable := Attempt(server, body, expected, worlds[attempts]);
      attempts := attempts + 1;
      if r.Ok? || !retriable || r.error.status != CONFLICT || attempts == MAX_ATTEMPTS {
        assert |rest| == 1 && rest[0] == Last(all);
        return;
      }
      assert all[attempts..] == rest[1..];
    }
    assert false;
  }
}
