/** Connection profiles: label normalisation, the row form, and the merge an update makes. */
module Profiles {
  import opened Prelude
  import opened PyText
  import Passwords
  import Schema

  // ----- labels --------------------------------------------------------------

  /** A Python dict of strings: insertion order, distinct keys. */
  type Dict = seq<(string, string)>

  predicate DistinctKeys(d: Dict) { forall i, j :: 0 <= i < j < |d| ==> d[i].0 != d[j].0 }

  predicate HasKey(d: Dict, k: string) { exists i :: 0 <= i < |d| && d[i].0 == k }

  /** `d[k] = v`: in place if the key is there, at the end otherwise. */
  function DictSet(d: Dict, k: string, v: string): Dict {
    if d == [] then [(k, v)]
    else if d[0].0 == k then [(k, v)] + d[1..]
    else [d[0]] + DictSet(d[1..], k, v)
  }

  /** `d.get(k, "")` */
  function DictGet(d: Dict, k: string): string {
    if d == [] then "" else if d[0].0 == k then d[0].1 else DictGet(d[1..], k)
  }

  /** The loop of `_normalize_labels`: keys stripped, blank keys dropped. */
  function Collect(v: Dict): Dict {
    if v == [] then []
    else
      var last := v[|v| - 1];
      var front := Collect(v[..|v| - 1]);
      if Strip(last.0) == "" then front else DictSet(front, Strip(last.0), last.1)
  }

  function EnvOf(labels: Dict): string {
    var env := Lower(Strip(DictGet(labels, "env")));
    if env == "" then "default" else env
  }

  /** `_normalize_labels` */
  function Normalize(v: Dict): Dict { DictSet(Collect(v), "env", EnvOf(Collect(v))) }

  /** What normalisation establishes. */
  predicate Normal(d: Dict) {
    && DistinctKeys(d)
    && (forall i :: 0 <= i < |d| ==> d[i].0 != "" && Trim(d[i].0))
    && HasKey(d, "env")
    && DictGet(d, "env") != "" && Trim(DictGet(d, "env")) && Lower(DictGet(d, "env")) == DictGet(d, "env")
  }

  lemma {:induction false} DictSetKeys(d: Dict, k: string, v: string, x: string)
    ensures HasKey(DictSet(d, k, v), x) <==> x == k || HasKey(d, x)
  {
    if d == [] {
      ConsKey((k, v), [], x);
    } else {
      assert d == [d[0]] + d[1..];
      ConsKey(d[0], d[1..], x);
      if d[0].0 == k {
        ConsKey((k, v), d[1..], x);
      } else {
        DictSetKeys(d[1..], k, v, x);
        ConsKey(d[0], DictSet(d[1..], k, v), x);
      }
    }
  }

  lemma {:induction false} DictSetDistinct(d: Dict, k: string, v: string)
    requires DistinctKeys(d)
    ensures DistinctKeys(DictSet(d, k, v))
  {
    if d != [] && d[0].0 != k {
      var t := DictSet(d[1..], k, v);
      DictSetDistinct(d[1..], k, v);
      DictSetKeys(d[1..], k, v, d[0].0);
      assert !HasKey(d[1..], d[0].0);
      assert forall j :: 0 <= j < |t| ==> HasKey(t, t[j].0);
    }
  }

  lemma {:induction false} DictSetValue(d: Dict, k: string, v: string)
    ensures DictGet(DictSet(d, k, v), k) == v
    ensures !HasKey(d, k) ==> DictSet(d, k, v) == d + [(k, v)]
    ensures HasKey(d, k) && DictGet(d, k) == v ==> DictSet(d, k, v) == d
  {
    if d != [] {
      assert d == [d[0]] + d[1..];
      ConsKey(d[0], d[1..], k);
      if d[0].0 != k {
        DictSetValue(d[1..], k, v);
      }
    }
  }

  lemma DictSetFacts(d: Dict, k: string, v: string)
    requires DistinctKeys(d)
    ensures DistinctKeys(DictSet(d, k, v)) && DictGet(DictSet(d, k, v), k) == v && HasKey(DictSet(d, k, v), k)
    ensures forall x :: HasKey(DictSet(d, k, v), x) <==> x == k || HasKey(d, x)
    ensures !HasKey(d, k) ==> DictSet(d, k, v) == d + [(k, v)]
    ensures HasKey(d, k) && DictGet(d, k) == v ==> DictSet(d, k, v) == d
  {
    DictSetDistinct(d, k, v);
    DictSetValue(d, k, v);
    forall x ensures HasKey(DictSet(d, k, v), x) <==> x == k || HasKey(d, x) { DictSetKeys(d, k, v, x); }
  }

  lemma ConsKey(p: (string, string), d: Dict, x: string)
    ensures HasKey([p] + d, x) <==> p.0 == x || HasKey(d, x)
  {
    if HasKey(d, x) {
      var i :| 0 <= i < |d| && d[i].0 == x;
      assert ([p] + d)[i + 1].0 == x;
    }
    if p.0 == x {
      assert ([p] + d)[0].0 == x;
    }
  }

  lemma {:induction false} CollectFacts(v: Dict)
    ensures DistinctKeys(Collect(v))
    ensures forall x :: HasKey(Collect(v), x) ==> x != "" && Trim(x)
  {
    if v != [] {
      var last := v[|v| - 1];
      CollectFacts(v[..|v| - 1]);
      StripTrims(last.0);
      if Strip(last.0) != "" {
        DictSetFacts(Collect(v[..|v| - 1]), Strip(last.0), last.1);
      }
    }
  }

  lemma {:induction false} CollectNormal(d: Dict)
    requires DistinctKeys(d) && forall i :: 0 <= i < |d| ==> d[i].0 != "" && Trim(d[i].0)
    ensures Collect(d) == d
  {
    if d != [] {
      var n := |d| - 1;
      CollectNormal(d[..n]);
      TrimStrips(d[n].0);
      assert !HasKey(d[..n], d[n].0);
      DictSetFacts(d[..n], d[n].0, d[n].1);
      assert d == d[..n] + [d[n]];
    }
  }

  lemma NormalizeIsNormal(v: Dict)
    ensures Normal(Normalize(v))
  {
    hide Collect, DictSet, DictGet, Strip;
    var c := Collect(v);
    CollectFacts(v);
    DictSetFacts(c, "env", EnvOf(c));
    var r := Normalize(v);
    forall i | 0 <= i < |r| ensures r[i].0 != "" && Trim(r[i].0) {
      assert HasKey(r, r[i].0);
    }
    StripTrims(DictGet(c, "env"));
    LowerKeepsTrim(Strip(DictGet(c, "env")));
    assert Lower("default") == "default";
  }

  lemma NormalIsFixed(d: Dict)
    requires Normal(d)
    ensures Normalize(d) == d
  {
    CollectNormal(d);
    TrimStrips(DictGet(d, "env"));
    DictSetFacts(d, "env", EnvOf(d));
  }

  /** Normalising twice is normalising once, so a label set survives being stored and read. */
  lemma NormalizeIdempotent(v: Dict)
    ensures Normalize(Normalize(v)) == Normalize(v)
  {
    NormalizeIsNormal(v);
    NormalIsFixed(Normalize(v));
  }

  /** The value of the last pair whose key strips to `k`. */
  function LastFor(v: Dict, k: string): Option<string> {
    if v == [] then None
    else if Strip(v[|v| - 1].0) == k then Some(v[|v| - 1].1)
    else LastFor(v[..|v| - 1], k)
  }

  lemma {:induction false} DictSetOthers(d: Dict, k: string, v: string, x: string)
    requires x != k
    ensures DictGet(DictSet(d, k, v), x) == DictGet(d, x)
  {
    if d != [] && d[0].0 != k {
      DictSetOthers(d[1..], k, v, x);
    }
  }

  lemma {:induction false} CollectKeeps(v: Dict, k: string)
    requires k != ""
    ensures HasKey(Collect(v), k) <==> LastFor(v, k).Some?
    ensures LastFor(v, k).Some? ==> DictGet(Collect(v), k) == LastFor(v, k).value
  {
    hide Strip;
    if v != [] {
      var last := v[|v| - 1];
      var front := v[..|v| - 1];
      CollectKeeps(front, k);
      CollectFacts(front);
      if Strip(last.0) != "" {
        DictSetFacts(Collect(front), Strip(last.0), last.1);
        if Strip(last.0) != k {
          DictSetOthers(Collect(front), Strip(last.0), last.1, k);
        }
      }
    }
  }

  /** No label is lost or made up: every other key is kept with its last value, and `env` is the
      lower-cased last `env`, or the default. */
  lemma NormalizeKeepsLabels(v: Dict, k: string)
    requires k != "" && k != "env"
    ensures HasKey(Normalize(v), k) <==> LastFor(v, k).Some?
    ensures LastFor(v, k).Some? ==> DictGet(Normalize(v), k) == LastFor(v, k).value
    ensures var env := if LastFor(v, "env").Some? then Lower(Strip(LastFor(v, "env").value)) else "";
            DictGet(Normalize(v), "env") == if env == "" then "default" else env
  {
    hide Collect, DictSet, Strip, Lower;
    CollectKeeps(v, k);
    CollectKeeps(v, "env");
    CollectFacts(v);
    DictSetFacts(Collect(v), "env", EnvOf(Collect(v)));
    DictSetOthers(Collect(v), "env", EnvOf(Collect(v)), k);
    if LastFor(v, "env").None? {
      MissingIsBlank(Collect(v), "env");
    }
  }

  lemma {:induction false} MissingIsBlank(d: Dict, k: string)
    requires !HasKey(d, k)
    ensures DictGet(d, k) == "" && Strip("") == "" && Lower("") == ""
  {
    if d != [] {
      assert d == [d[0]] + d[1..];
      ConsKey(d[0], d[1..], k);
      MissingIsBlank(d[1..], k);
    }
  }

  // ----- profiles ------------------------------------------------------------

  datatype Field =
    | Name | Hosts | Port | ClusterName | Username | Password | Color | Note | Labels | WorkspaceId

  datatype Value = Null | Text(s: string) | Number(n: int) | TextList(xs: seq<string>) | LabelDict(d: Dict)

  /** A model's fields, or the part of them an update names. */
  type Fields = map<Field, Value>

  datatype Profile = Profile(id: string, fields: Fields, createdAt: string, updatedAt: string)

  predicate HexColor(s: string) {
    |s| == 7 && s[0] == '#' && forall i :: 1 <= i < 7 ==> '0' <= s[i] <= '9' || 'a' <= s[i] <= 'f' || 'A' <= s[i] <= 'F'
  }

  /** What the profile model accepts for a field. */
  predicate Accepts(f: Field, v: Value) {
    match f
    case Name => v.Text?
    case Hosts => v.TextList? && v.xs != []
    case Port => v.Number? && 1 <= v.n <= 65535
    case ClusterName => v.Null? || v.Text?
    case Username => v.Null? || v.Text?
    case Password => v.Null? || v.Text?
    case Color => v.Text? && HexColor(v.s)
    case Note => v.Null? || v.Text?
    case Labels => v.LabelDict? || v.Null?
    case WorkspaceId => v.Text? || v.Null?
  }

  /** What construction makes of an accepted value: labels normalised, a missing workspace defaulted. */
  function Settle(f: Field, v: Value): Value {
    match f
    case Labels => LabelDict(Normalize(if v.LabelDict? then v.d else []))
    case WorkspaceId => if v == Null || v == Text("") then Text(Schema.DEFAULT_WORKSPACE_ID) else v
    case _ => v
  }

  predicate Complete(m: Fields) { forall f: Field :: f in m && Accepts(f, m[f]) }

  /** A profile as the model class guarantees it. */
  predicate Constructed(p: Profile) {
    Complete(p.fields) && forall f: Field :: Settle(f, p.fields[f]) == p.fields[f]
  }

  function AllFields(): set<Field> {
    {Name, Hosts, Port, ClusterName, Username, Password, Color, Note, Labels, WorkspaceId}
  }

  /** The profile constructor on a dict of fields. */
  function Construct(id: string, m: Fields, createdAt: string, updatedAt: string): Profile
    requires Complete(m)
  {
    Profile(id, map f | f in AllFields() && f in m :: Settle(f, m[f]), createdAt, updatedAt)
  }

  /** `build_merged_profile`: None when the model rejects the merged fields. */
  function BuildMerged(existing: Profile, data: Fields, now: string): Option<Profile> {
    var merged := existing.fields + data;
    if Complete(merged) then Some(Construct(existing.id, merged, existing.createdAt, now)) else None
  }

  lemma SettleIdempotent(f: Field, v: Value)
    ensures Settle(f, Settle(f, v)) == Settle(f, v)
    ensures Accepts(f, v) ==> Accepts(f, Settle(f, v))
  {
    if f.Labels? {
      NormalizeIdempotent(if v.LabelDict? then v.d else []);
    }
  }

  lemma ConstructIsConstructed(id: string, m: Fields, createdAt: string, updatedAt: string)
    requires Complete(m)
    ensures Constructed(Construct(id, m, createdAt, updatedAt))
    ensures forall f: Field :: Construct(id, m, createdAt, updatedAt).fields[f] == Settle(f, m[f])
  {
    forall f: Field
      ensures f in AllFields() && Settle(f, Settle(f, m[f])) == Settle(f, m[f]) && Accepts(f, Settle(f, m[f]))
    {
      SettleIdempotent(f, m[f]);
    }
  }

  /** What may be asked of a field. */
  predicate Acceptable(data: Fields) {
    && (Name in data ==> data[Name].Text?)
    && (Hosts in data ==> data[Hosts].TextList? && |data[Hosts].xs| >= 1)
    && (Port in data ==> data[Port].Number? && 0 < data[Port].n < 65536)
    && (Color in data ==> data[Color].Text? && IsColor(data[Color].s))
    && (Labels in data ==> data[Labels] == Null || data[Labels].LabelDict?)
    && (forall f :: f in data && f in {ClusterName, Username, Password, Note, WorkspaceId} ==> data[f] == Null || data[f].Text?)
  }

  /** `#` and six hexadecimal digits. */
  predicate IsColor(s: string) {
    |s| == 7 && s[0] == '#' && forall c :: c in s[1..] ==> c in "0123456789abcdefABCDEF"
  }

  lemma ColorIff(s: string)
    ensures HexColor(s) <==> IsColor(s)
  {
    if |s| == 7 {
      forall i | 1 <= i < 7 ensures s[i] in s[1..] { assert s[1..][i - 1] == s[i]; }
      forall c | c in s[1..] ensures exists i :: 1 <= i < 7 && s[i] == c {
        var j :| 0 <= j < 6 && s[1..][j] == c;
        assert s[j + 1] == c;
      }
      forall i | 1 <= i < 7
        ensures ('0' <= s[i] <= '9' || 'a' <= s[i] <= 'f' || 'A' <= s[i] <= 'F') <==> s[i] in "0123456789abcdefABCDEF"
      {
      }
    }
  }

  lemma AcceptableIff(data: Fields)
    ensures (forall f: Field :: f in data ==> Accepts(f, data[f])) <==> Acceptable(data)
  {
    if Color in data && data[Color].Text? {
      ColorIff(data[Color].s);
    }
    hide HexColor, IsColor;
  }

  lemma MergedComplete(existing: Profile, data: Fields)
    requires Constructed(existing)
    ensures Complete(existing.fields + data) <==> forall f: Field :: f in data ==> Accepts(f, data[f])
    ensures forall f: Field :: f !in data ==> f in existing.fields && Settle(f, existing.fields[f]) == existing.fields[f]
  {
    hide Accepts, Settle;
    var merged := existing.fields + data;
    if Complete(merged) {
      forall f: Field | f in data ensures Accepts(f, data[f]) { assert Accepts(f, merged[f]); }
    }
  }

  lemma MergedField(existing: Profile, data: Fields, now: string, f: Field)
    requires Constructed(existing) && Complete(existing.fields + data)
    ensures var q := Construct(existing.id, existing.fields + data, existing.createdAt, now);
            f in q.fields && f in existing.fields
            && q.fields[f] == if f in data then Settle(f, data[f]) else existing.fields[f]
  {
    hide Accepts, Settle;
    MergedComplete(existing, data);
    ConstructIsConstructed(existing.id, existing.fields + data, existing.createdAt, now);
  }

  /** An update of a profile goes through if and only if every field it names is acceptable; then each
      field named gets its value, labels normalised and an empty workspace made the default one,
      every other field, the id and the creation time stay, and the update time moves. */
  lemma UpdateIff(existing: Profile, data: Fields, now: string, f: Field)
    requires Constructed(existing)
    ensures BuildMerged(existing, data, now).Some? <==> Acceptable(data)
    ensures Acceptable(data) ==>
              var q := BuildMerged(existing, data, now).value;
              && q.id == existing.id && q.createdAt == existing.createdAt && q.updatedAt == now
              && f in q.fields && f in existing.fields
              && (f !in data ==> q.fields[f] == existing.fields[f])
              && (f in data && f != Labels && f != WorkspaceId ==> q.fields[f] == data[f])
              && (f in data && f == Labels ==> q.fields[f] == LabelDict(Normalize(if data[f] == Null then [] else data[f].d)))
              && (f in data && f == WorkspaceId ==>
                    q.fields[f] == (if data[f] == Null || data[f] == Text("") then Text("ws-default") else data[f]))
  {
    AcceptableIff(data);
    MergedComplete(existing, data);
    hide Normalize, Accepts, Constructed, Complete, Construct;
    if Acceptable(data) {
      MergedField(existing, data, now, f);
    }
  }

  // ----- rows ----------------------------------------------------------------

  /** A stored row: the fields, with the password column encrypted. */
  datatype Row = Row(id: string, fields: Fields, createdAt: string, updatedAt: string)

  /** What a write stores for the password column: falsy values verbatim, the rest encrypted. */
  function StoredPassword(c: Passwords.Cipher, v: Value, nonce: nat): Value {
    if v.Text? && v.s != "" then Text(Passwords.Encrypt(c, v.s, nonce)) else v
  }

  function RowOf(c: Passwords.Cipher, p: Profile, nonce: nat): Row
    requires Password in p.fields
  {
    Row(p.id, p.fields[Password := StoredPassword(c, p.fields[Password], nonce)], p.createdAt, p.updatedAt)
  }

  /** `_row_to_profile`: the model is built from the row, then the password decrypted. */
  function ProfileOf(c: Passwords.Cipher, r: Row): Option<Profile> {
    if !Complete(r.fields) then None
    else
      var p := Construct(r.id, r.fields, r.createdAt, r.updatedAt);
      var v := r.fields[Password];
      if v.Text? && v.s != "" then
        match Passwords.Decrypt(c, Some(v.s))
        case Ok(plain) => Some(p.(fields := p.fields[Password := if plain.Some? then Text(plain.value) else Null]))
        case Err(_) => None
      else Some(p)
  }

  lemma RowConstructs(c: Passwords.Cipher, p: Profile, nonce: nat)
    requires Constructed(p)
    ensures var r := RowOf(c, p, nonce);
            Complete(r.fields)
            && var m := Construct(r.id, r.fields, r.createdAt, r.updatedAt).fields;
               forall f: Field :: f in m && m[f] == r.fields[f]
  {
    var r := RowOf(c, p, nonce);
    forall f: Field ensures f in r.fields && Accepts(f, r.fields[f]) && Settle(f, r.fields[f]) == r.fields[f] {
      assert Settle(f, p.fields[f]) == p.fields[f];
    }
    ConstructIsConstructed(r.id, r.fields, r.createdAt, r.updatedAt);
  }

  /** Storing a profile and reading it back gives the same profile. */
  lemma RowRoundTrip(c: Passwords.Cipher, p: Profile, nonce: nat)
    requires Passwords.Sound(c) && Constructed(p)
    ensures ProfileOf(c, RowOf(c, p, nonce)) == Some(p)
  {
    hide Settle, Accepts, Passwords.Decrypt;
    var r, v := RowOf(c, p, nonce), p.fields[Password];
    RowConstructs(c, p, nonce);
    if v.Text? {
      Passwords.RoundTrip(c, v.s, nonce);
    }
    assert ProfileOf(c, r).Some?;
    var q := ProfileOf(c, r).value;
    forall f: Field ensures f in q.fields && f in p.fields && q.fields[f] == p.fields[f] {
    }
    assert q.fields == p.fields;
  }

  /** No plaintext password is stored: a row's is absent, empty or marked. */
  lemma StoredIsMarked(c: Passwords.Cipher, p: Profile, nonce: nat)
    requires Constructed(p)
    ensures var v := RowOf(c, p, nonce).fields[Password]; v == Null || v == Text("") || (v.Text? && "enc:v1:" <= v.s)
    ensures forall f: Field :: f != Password ==> RowOf(c, p, nonce).fields[f] == p.fields[f]
  {
    var v := p.fields[Password];
    if v.Text? {
      PlainOrMarked(c, v.s, nonce);
    }
  }

  lemma PlainOrMarked(c: Passwords.Cipher, s: string, nonce: nat)
    ensures s == "" || "enc:v1:" <= Passwords.Encrypt(c, s, nonce)
  {
  }

  /** A profile with another accepted password. */
  lemma PasswordReplaced(p: Profile, password: Value)
    requires Constructed(p) && Accepts(Password, password)
    ensures Constructed(p.(fields := p.fields[Password := password]))
  {
    hide Normalize, HexColor;
    var q := p.(fields := p.fields[Password := password]);
    forall f: Field ensures f in q.fields && Accepts(f, q.fields[f]) && Settle(f, q.fields[f]) == q.fields[f] {
      assert Settle(f, p.fields[f]) == p.fields[f];
    }
  }

  /** Whatever is read from a row is a profile the model class accepts. */
  lemma ReadIsConstructed(c: Passwords.Cipher, r: Row)
    requires ProfileOf(c, r).Some?
    ensures Constructed(ProfileOf(c, r).value)
    ensures ProfileOf(c, r).value.id == r.id && ProfileOf(c, r).value.createdAt == r.createdAt
  {
    ConstructIsConstructed(r.id, r.fields, r.createdAt, r.updatedAt);
    var p := Construct(r.id, r.fields, r.createdAt, r.updatedAt);
    hide Constructed, Settle, Complete, Passwords.Decrypt;
    if ProfileOf(c, r).value != p {
      var plain := ProfileOf(c, r).value.fields[Password];
      assert Accepts(Password, plain);
      PasswordReplaced(p, plain);
    }
  }

  // ----- a sequence of updates -----------------------------------------------

  datatype Update = Update(data: Fields, now: string)

  /** Updates applied one after the other; one the model rejects changes nothing. */
  function Fold(p: Profile, us: seq<Update>): Profile {
    if us == [] then p
    else
      var q := Fold(p, us[..|us| - 1]);
      var u := us[|us| - 1];
      match BuildMerged(q, u.data, u.now) case Some(r) => r case None => q
  }

  predicate AllAccepted(p: Profile, us: seq<Update>) {
    us == [] || (AllAccepted(p, us[..|us| - 1])
                 && BuildMerged(Fold(p, us[..|us| - 1]), us[|us| - 1].data, us[|us| - 1].now).Some?)
  }

  /** The value a field ends with: that of the last update naming it, or the first profile's. */
  function LastNamed(p: Profile, us: seq<Update>, f: Field): Value
    requires f in p.fields
  {
    if us == [] then p.fields[f]
    else if f in us[|us| - 1].data then Settle(f, us[|us| - 1].data[f])
    else LastNamed(p, us[..|us| - 1], f)
  }

  /** No update is lost: every field holds what the last update naming it set, and identity and
      creation time never change. */
  lemma {:induction false} NoLostUpdate(p: Profile, us: seq<Update>)
    requires Constructed(p) && AllAccepted(p, us)
    ensures var q := Fold(p, us);
            && Constructed(q) && q.id == p.id && q.createdAt == p.createdAt
            && (us != [] ==> q.updatedAt == us[|us| - 1].now)
            && forall f: Field :: q.fields[f] == LastNamed(p, us, f)
  {
    if us != [] {
      var n := |us| - 1;
      NoLostUpdate(p, us[..n]);
      var q := Fold(p, us[..n]);
      var merged := q.fields + us[n].data;
      ConstructIsConstructed(q.id, merged, q.createdAt, us[n].now);
    }
  }
}
