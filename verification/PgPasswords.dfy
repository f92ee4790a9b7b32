/** The password migration of the PostgreSQL backend on one row, beside updates of that row.  The
    migration selects without locking, so what it later writes is what it selected.  An update
    locks the row from its read to its commit, and the migration's write waits for that lock, so
    each of the two is one step here, at its commit; a migration is identified by a number. */
module PgPasswords {
  import opened Prelude
  import opened Passwords

  datatype State = State(
    row: Stored,
    selected: map<nat, Stored>,     // what each running migration selected
    counted: nat,                   // rows reported as rewritten, all migrations together
    wanted: Result<Stored, Error>,  // what the last update stored, or the row read at first
    overtaken: set<nat>)            // migrations that selected before the last update

  datatype Action =
    | Select(m: nat)
    | Rewrite(m: nat, nonce: nat)
    | Update(password: Stored, nonce: nat)

  function Start(c: Cipher, row: Stored): State { State(row, map[], 0, Decrypt(c, row), {}) }

  function Read(c: Cipher, s: State): Result<Stored, Error> { Decrypt(c, s.row) }

  /** What a write stores for a password. */
  function StoredForm(c: Cipher, password: Stored, nonce: nat): Stored {
    if password.Some? && password.value != "" then Some(Encrypt(c, password.value, nonce)) else password
  }

  predicate Enabled(s: State, a: Action) { a.Rewrite? ==> a.m in s.selected && Plain(s.selected[a.m]) }

  function Do(c: Cipher, s: State, a: Action): State
    requires Enabled(s, a)
  {
    match a
    case Select(m) => s.(selected := s.selected[m := s.row], overtaken := s.overtaken - {m})
    case Rewrite(m, nonce) =>
      s.(row := Some(Encrypt(c, s.selected[m].value, nonce)), selected := s.selected - {m}, counted := s.counted + 1)
    case Update(password, nonce) =>
      s.(row := StoredForm(c, password, nonce), wanted := Ok(password), overtaken := s.selected.Keys)
  }

  predicate CanRun(c: Cipher, s: State, acts: seq<Action>)
    decreases |acts|
  {
    acts == [] || (Enabled(s, acts[0]) && CanRun(c, Do(c, s, acts[0]), acts[1..]))
  }

  function After(c: Cipher, s: State, acts: seq<Action>): State
    requires CanRun(c, s, acts)
    decreases |acts|
  {
    if acts == [] then s else After(c, Do(c, s, acts[0]), acts[1..])
  }

  /** At every point of the run the row reads as the last update left it. */
  predicate NothingLost(c: Cipher, s: State, acts: seq<Action>)
    requires CanRun(c, s, acts)
    decreases |acts|
  {
    Read(c, s) == s.wanted && (acts == [] || NothingLost(c, Do(c, s, acts[0]), acts[1..]))
  }

  /** Every rewrite finds the row still reading as it was selected. */
  predicate EveryRewriteCurrent(c: Cipher, s: State, acts: seq<Action>)
    requires CanRun(c, s, acts)
    decreases |acts|
  {
    acts == []
    || ((acts[0].Rewrite? ==> Read(c, s) == Ok(s.selected[acts[0].m])) && EveryRewriteCurrent(c, Do(c, s, acts[0]), acts[1..]))
  }

  lemma StoredReadsBack(c: Cipher, password: Stored, nonce: nat)
    requires Sound(c)
    ensures Decrypt(c, StoredForm(c, password, nonce)) == Ok(password)
    ensures password.Some? && password.value != "" ==> IsEncrypted(StoredForm(c, password, nonce))
  {
    if password.Some? {
      RoundTrip(c, password.value, nonce);
    }
  }

  /** A rewrite changes what readers see exactly when the row no longer reads as selected. */
  lemma RewriteKeepsReadIff(c: Cipher, s: State, m: nat, nonce: nat)
    requires Sound(c) && Enabled(s, Rewrite(m, nonce))
    ensures Read(c, Do(c, s, Rewrite(m, nonce))) == Ok(s.selected[m])
    ensures Read(c, Do(c, s, Rewrite(m, nonce))) == Read(c, s) <==> Read(c, s) == Ok(s.selected[m])
  {
    RoundTrip(c, s.selected[m].value, nonce);
  }

  /** No update is lost, at any point of any run, if and only if every rewrite finds the row still
      reading as the migration selected it. */
  lemma {:induction false} NothingLostIff(c: Cipher, s: State, acts: seq<Action>)
    requires Sound(c) && CanRun(c, s, acts) && Read(c, s) == s.wanted
    ensures NothingLost(c, s, acts) <==> EveryRewriteCurrent(c, s, acts)
    decreases |acts|
  {
    if acts != [] {
      var a := acts[0];
      var s' := Do(c, s, a);
      if a.Rewrite? {
        RewriteKeepsReadIff(c, s, a.m, a.nonce);
      } else if a.Update? {
        StoredReadsBack(c, a.password, a.nonce);
      }
      hide Decrypt, StoredForm, Encrypt;
      if Read(c, s') == s'.wanted {
        NothingLostIff(c, s', acts[1..]);
      }
    }
  }

  /** No migration writes after an update that came between its select and that write. */
  predicate NoneOvertaken(c: Cipher, s: State, acts: seq<Action>)
    requires CanRun(c, s, acts)
    decreases |acts|
  {
    acts == []
    || ((acts[0].Rewrite? ==> acts[0].m !in s.overtaken) && NoneOvertaken(c, Do(c, s, acts[0]), acts[1..]))
  }

  predicate Current(c: Cipher, s: State) {
    forall m :: m in s.selected && m !in s.overtaken && Plain(s.selected[m]) ==> Read(c, s) == Ok(s.selected[m])
  }

  lemma {:induction false} NoneOvertakenIsEnough(c: Cipher, s: State, acts: seq<Action>)
    requires Sound(c) && CanRun(c, s, acts) && Current(c, s) && NoneOvertaken(c, s, acts)
    ensures EveryRewriteCurrent(c, s, acts)
    decreases |acts|
  {
    if acts != [] {
      var a := acts[0];
      if a.Rewrite? {
        RewriteKeepsReadIff(c, s, a.m, a.nonce);
      }
      NoneOvertakenIsEnough(c, Do(c, s, a), acts[1..]);
    }
  }

  /** With any number of migrations, runs in which no update comes between a select and its write
      lose no update; selects and writes of the migrations may interleave freely. */
  lemma SafeUnlessOvertaken(c: Cipher, row: Stored, acts: seq<Action>)
    requires Sound(c) && CanRun(c, Start(c, row), acts) && NoneOvertaken(c, Start(c, row), acts)
    ensures NothingLost(c, Start(c, row), acts)
  {
    NoneOvertakenIsEnough(c, Start(c, row), acts);
    NothingLostIff(c, Start(c, row), acts);
  }

  // ----- the bookkeeping, told from the actions alone ---------------------------

  lemma {:induction false} RunSnoc(c: Cipher, s: State, acts: seq<Action>)
    requires CanRun(c, s, acts) && acts != []
    ensures var n := |acts| - 1;
            CanRun(c, s, acts[..n]) && Enabled(After(c, s, acts[..n]), acts[n])
            && After(c, s, acts) == Do(c, After(c, s, acts[..n]), acts[n])
    decreases |acts|
  {
    hide Do, Enabled;
    var n := |acts| - 1;
    if n > 0 {
      RunSnoc(c, Do(c, s, acts[0]), acts[1..]);
      assert acts[1..][..n - 1] == acts[..n][1..];
    }
  }

  /** Migration `m` selected, and has not written since. */
  predicate Selecting(acts: seq<Action>, m: nat) {
    exists k :: 0 <= k < |acts| && acts[k] == Select(m) && forall j :: k < j < |acts| ==> !(acts[j].Rewrite? && acts[j].m == m)
  }

  /** An update came after the last select of migration `m`. */
  predicate Outdated(acts: seq<Action>, m: nat) {
    exists k :: 0 <= k < |acts| && acts[k].Update? && forall j :: k < j < |acts| ==> acts[j] != Select(m)
  }

  lemma ToldSnoc(acts: seq<Action>, a: Action, m: nat)
    ensures Selecting(acts + [a], m) <==> a == Select(m) || (Selecting(acts, m) && !(a.Rewrite? && a.m == m))
    ensures Outdated(acts + [a], m) <==> a.Update? || (Outdated(acts, m) && a != Select(m))
  {
    var all := acts + [a];
    assert forall k :: 0 <= k < |acts| ==> all[k] == acts[k];
    assert all[|acts|] == a;
  }

  /** A migration can write exactly while it has selected plaintext and not written since, and it is
      overtaken exactly when an update came after its select. */
  lemma {:induction false} SelectedIff(c: Cipher, row: Stored, acts: seq<Action>, m: nat)
    requires CanRun(c, Start(c, row), acts)
    ensures var s := After(c, Start(c, row), acts);
            && (m in s.selected <==> Selecting(acts, m))
            && (m in s.selected ==> (m in s.overtaken <==> Outdated(acts, m)))
            && (Enabled(s, Rewrite(m, 0)) <==> Selecting(acts, m) && Plain(s.selected[m]))
    decreases |acts|
  {
    hide StoredForm, Encrypt, Plain;
    if acts != [] {
      var front, last := acts[..|acts| - 1], acts[|acts| - 1];
      RunSnoc(c, Start(c, row), acts);
      SelectedIff(c, row, front, m);
      assert acts == front + [last];
      ToldSnoc(front, last, m);
      hide Selecting, Outdated, CanRun, After;
    }
  }

  lemma Prepend(c: Cipher, s: State, a: Action, rest: seq<Action>)
    requires Enabled(s, a) && CanRun(c, Do(c, s, a), rest)
    ensures CanRun(c, s, [a] + rest) && After(c, s, [a] + rest) == After(c, Do(c, s, a), rest)
  {
    hide Do, Enabled;
    assert ([a] + rest)[1..] == rest;
  }

  lemma RunThree(c: Cipher, s: State, a1: Action, a2: Action, a3: Action)
    requires Enabled(s, a1) && Enabled(Do(c, s, a1), a2) && Enabled(Do(c, Do(c, s, a1), a2), a3)
    ensures CanRun(c, s, [a1, a2, a3]) && After(c, s, [a1, a2, a3]) == Do(c, Do(c, Do(c, s, a1), a2), a3)
  {
    hide Do, Enabled;
    Prepend(c, Do(c, Do(c, s, a1), a2), a3, []);
    Prepend(c, Do(c, s, a1), a2, [a3] + []);
    Prepend(c, s, a1, [a2] + ([a3] + []));
    assert [a1] + ([a2] + ([a3] + [])) == [a1, a2, a3];
  }

  /** An update between the select and the write is overwritten by the old password. */
  lemma OvertakenUpdateIsLost(c: Cipher, was: string, now: string)
    requires Sound(c) && was != "" && now != was && !(MARKER <= was)
    ensures var acts := [Select(0), Update(Some(now), 0), Rewrite(0, 0)];
            CanRun(c, Start(c, Some(was)), acts)
            && var s := After(c, Start(c, Some(was)), acts);
               s.wanted == Ok(Some(now)) && Read(c, s) == Ok(Some(was))
  {
    var s0 := Start(c, Some(was));
    var s2 := Do(c, Do(c, s0, Select(0)), Update(Some(now), 0));
    RunThree(c, s0, Select(0), Update(Some(now), 0), Rewrite(0, 0));
    RewriteKeepsReadIff(c, s2, 0, 0);
  }

  // ----- the count ---------------------------------------------------------------

  /** Every rewrite of the run finds the row still plaintext. */
  predicate RewritesPlain(c: Cipher, s: State, acts: seq<Action>)
    requires CanRun(c, s, acts)
    decreases |acts|
  {
    acts == [] || ((acts[0].Rewrite? ==> Plain(s.row)) && RewritesPlain(c, Do(c, s, acts[0]), acts[1..]))
  }

  /** How often a rewrite turned plaintext into ciphertext. */
  function Converted(c: Cipher, s: State, acts: seq<Action>): nat
    requires CanRun(c, s, acts)
    decreases |acts|
  {
    if acts == [] then 0
    else (if acts[0].Rewrite? && Plain(s.row) then 1 else 0) + Converted(c, Do(c, s, acts[0]), acts[1..])
  }

  /** All migrations together never report fewer rows than were converted, and exactly as many if
      and only if every rewrite found the row still plaintext. */
  lemma {:induction false} CountedExactlyIff(c: Cipher, s: State, acts: seq<Action>)
    requires CanRun(c, s, acts)
    ensures After(c, s, acts).counted >= s.counted + Converted(c, s, acts)
    ensures After(c, s, acts).counted == s.counted + Converted(c, s, acts) <==> RewritesPlain(c, s, acts)
    decreases |acts|
  {
    hide Plain, StoredForm, Encrypt;
    if acts != [] {
      CountedExactlyIff(c, Do(c, s, acts[0]), acts[1..]);
    }
  }

  /** Two migrations that both select the row before either writes report it twice, though it
      keeps its password. */
  lemma CountedTwice(c: Cipher, was: string)
    requires Sound(c) && was != "" && !(MARKER <= was)
    ensures var s0 := Start(c, Some(was));
            var s1 := Do(c, Do(c, s0, Select(0)), Select(1));
            Enabled(s1, Rewrite(0, 0)) && Enabled(Do(c, s1, Rewrite(0, 0)), Rewrite(1, 1))
            && var s := Do(c, Do(c, s1, Rewrite(0, 0)), Rewrite(1, 1));
               s.counted == 2 && Read(c, s) == Read(c, s0)
  {
    var s1 := Do(c, Do(c, Start(c, Some(was)), Select(0)), Select(1));
    RewriteKeepsReadIff(c, s1, 0, 0);
    RewriteKeepsReadIff(c, Do(c, s1, Rewrite(0, 0)), 1, 1);
  }
}
