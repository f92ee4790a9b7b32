/** Passwords at rest: the marked-ciphertext encoding, and the migration that encrypts legacy
    plaintext rows in one transaction.  The cipher is any randomised pair whose decryption
    undoes its encryption. */
module Passwords {
  import opened Prelude

  const MARKER := "enc:v1:"

  datatype Cipher = Cipher(encrypt: (string, nat) -> string, decrypt: string -> Option<string>)

  ghost predicate Sound(c: Cipher) {
    forall plain: string, nonce: nat :: c.decrypt(c.encrypt(plain, nonce)) == Some(plain)
  }

  datatype Error = KekMismatch | KekMissing | StoreFailed

  type Stored = Option<string>

  /** `encrypt_password`; the nonce is the cipher's randomness. */
  function Encrypt(c: Cipher, plain: string, nonce: nat): string {
    if plain == "" then "" else MARKER + c.encrypt(plain, nonce)
  }

  predicate IsEncrypted(stored: Stored) { stored.Some? && MARKER <= stored.value }

  /** `decrypt_password`: unmarked text is legacy plaintext. */
  function Decrypt(c: Cipher, stored: Stored): Result<Stored, Error> {
    if stored.None? || stored.value == "" || !(MARKER <= stored.value) then Ok(stored)
    else
      match c.decrypt(stored.value[|MARKER|..])
      case Some(plain) => Ok(Some(plain))
      case None => Err(KekMismatch)
  }

  /** Whatever is encrypted on write reads back, a password that looks like a ciphertext included. */
  lemma RoundTrip(c: Cipher, plain: string, nonce: nat)
    requires Sound(c)
    ensures Decrypt(c, Some(Encrypt(c, plain, nonce))) == Ok(Some(plain))
    ensures IsEncrypted(Some(Encrypt(c, plain, nonce))) <==> plain != ""
    ensures plain != "" ==> "enc:v1:" <= Encrypt(c, plain, nonce)
    ensures plain == "" ==> Encrypt(c, plain, nonce) == ""
  {
    if plain != "" {
      assert (MARKER + c.encrypt(plain, nonce))[|MARKER|..] == c.encrypt(plain, nonce);
    }
  }

  /** A legacy plaintext reads back as itself exactly when it does not carry the marker (or
      happens to be a ciphertext of itself). */
  lemma LegacyReadsBackIff(c: Cipher, plain: string)
    ensures Decrypt(c, Some(plain)) == Ok(Some(plain))
            <==> !("enc:v1:" <= plain) || c.decrypt(plain[7..]) == Some(plain)
  {
    assert |MARKER| == 7 && !(MARKER <= "");
  }

  type Table = map<string, Stored>

  /** What every reader sees: each row's password, or the error reading it raises. */
  function Seen(c: Cipher, table: Table): map<string, Result<Stored, Error>> {
    map id | id in table :: Decrypt(c, table[id])
  }

  predicate Plain(stored: Stored) { stored.Some? && stored.value != "" && !IsEncrypted(stored) }

  function PlainRows(table: Table): set<string> { set id | id in table && Plain(table[id]) }

  lemma RewriteKeepsSeen(c: Cipher, table: Table, id: string, nonce: nat)
    requires Sound(c) && id in table && Plain(table[id])
    ensures var table' := table[id := Some(Encrypt(c, table[id].value, nonce))];
            Seen(c, table') == Seen(c, table) && PlainRows(table') == PlainRows(table) - {id}
  {
    RoundTrip(c, table[id].value, nonce);
  }

  lemma NonePlain(table: Table)
    requires PlainRows(table) == {}
    ensures forall id :: id in table && table[id].Some? && table[id].value != "" ==> "enc:v1:" <= table[id].value
  {
    assert forall id :: id in table ==> id !in PlainRows(table);
  }

  /** How far the migration of `saved` has come: `rows` are still to be looked at. */
  ghost predicate Progress(c: Cipher, saved: Table, now: Table, rows: set<string>, rewritten: nat, fails: set<string>) {
    && rows <= saved.Keys == now.Keys
    && Seen(c, now) == Seen(c, saved)
    && (forall id :: id in saved && (id in rows || !Plain(saved[id])) ==> now[id] == saved[id])
    && PlainRows(now) == PlainRows(saved) * rows
    && rewritten + |PlainRows(now)| == |PlainRows(saved)|
    && PlainRows(saved) * fails <= rows
  }

  lemma Begins(c: Cipher, saved: Table, fails: set<string>)
    ensures Progress(c, saved, saved, saved.Keys, 0, fails)
  {
  }

  lemma Skips(c: Cipher, saved: Table, now: Table, rows: set<string>, rewritten: nat, fails: set<string>, id: string)
    requires Progress(c, saved, now, rows, rewritten, fails) && id in rows && !Plain(saved[id])
    ensures Progress(c, saved, now, rows - {id}, rewritten, fails)
  {
    hide Seen, Plain;
    assert id !in PlainRows(saved);
  }

  lemma Rewrites(c: Cipher, saved: Table, now: Table, rows: set<string>, rewritten: nat, fails: set<string>, id: string, nonce: nat)
    requires Sound(c) && Progress(c, saved, now, rows, rewritten, fails) && id in rows && Plain(saved[id]) && id !in fails
    ensures now[id] == saved[id]
    ensures Progress(c, saved, now[id := Some(Encrypt(c, saved[id].value, nonce))], rows - {id}, rewritten + 1, fails)
  {
    hide Seen, Encrypt, Sound;
    RewriteKeepsSeen(c, now, id, nonce);
    assert id in PlainRows(now);
  }

  lemma Ends(c: Cipher, saved: Table, now: Table, rewritten: nat, fails: set<string>)
    requires Progress(c, saved, now, {}, rewritten, fails)
    ensures PlainRows(now) == {} && rewritten == |PlainRows(saved)| && Seen(c, now) == Seen(c, saved) && now.Keys == saved.Keys
    ensures forall id :: id in PlainRows(saved) ==> id !in fails
    ensures forall id :: id in now && id !in PlainRows(saved) ==> now[id] == saved[id]
    ensures forall id :: id in now && now[id].Some? && now[id].value != "" ==> "enc:v1:" <= now[id].value
  {
    NonePlain(now);
    hide Seen;
    forall id | id in PlainRows(saved) ensures id !in fails {
      assert id !in PlainRows(saved) * fails;
    }
  }

  lemma PlainRow(table: Table, id: string)
    requires id in table && Plain(table[id])
    ensures id in PlainRows(table)
  {
  }

  lemma StillSeen(c: Cipher, saved: Table, now: Table, rows: set<string>, rewritten: nat, fails: set<string>)
    requires Progress(c, saved, now, rows, rewritten, fails)
    ensures Seen(c, now) == Seen(c, saved)
  {
  }

  class PasswordStore {
    var connections: Table

    constructor (connections: Table)
      ensures this.connections == connections
    {
      this.connections := connections;
    }

    /** Encrypts every plaintext row in one transaction; a failure of the key or of a statement, which
        `fails` says for each row, or of the commit rolls all of it back.  `trace` holds the table as any
        reader may find it along the way. */
    method MigratePasswordsToEncrypted(c: Cipher, nonces: map<string, nat>, fails: map<string, Error>, commits: bool)
      returns (r: Result<nat, Error>, ghost trace: seq<Table>)
      requires Sound(c)
      modifies this
      ensures Seen(c, connections) == Seen(c, old(connections))
      ensures forall i :: 0 <= i < |trace| ==> Seen(c, trace[i]) == Seen(c, old(connections))
      ensures r.Err? ==> connections == old(connections)
      ensures r.Ok? <==> commits && forall id :: id in PlainRows(old(connections)) ==> id !in fails
      ensures r.Ok? ==> PlainRows(connections) == {} && r.value == |PlainRows(old(connections))|
      ensures r.Ok? ==> forall id :: id in connections && connections[id].Some? && connections[id].value != "" ==>
                                       "enc:v1:" <= connections[id].value
      ensures r.Ok? ==> connections.Keys == old(connections).Keys
                        && forall id :: id in connections && id !in PlainRows(old(connections)) ==>
                                        connections[id] == old(connections)[id]
    {
      hide Progress, Seen, Decrypt, Encrypt, PlainRows;
      var saved := connections;
      var rows := saved.Keys;
      var rewritten := 0;
      trace := [connections];
      Begins(c, saved, fails.Keys);
      while rows != {}
        invariant rows <= saved.Keys == connections.Keys && Progress(c, saved, connections, rows, rewritten, fails.Keys)
        invariant forall i :: 0 <= i < |trace| ==> Seen(c, trace[i]) == Seen(c, saved)
        decreases rows
      {
        var id :| id in rows;
        var password := saved[id];
        if password == None || password == Some("") {
          Skips(c, saved, connections, rows, rewritten, fails.Keys, id);
          rows := rows - {id};
          continue;
        }
        if IsEncrypted(password) {
          Skips(c, saved, connections, rows, rewritten, fails.Keys, id);
          rows := rows - {id};
          continue;
        }
        if id in fails {
          PlainRow(saved, id);
          connections := saved;
          return Err(fails[id]), trace + [connections];
        }
        var nonce := if id in nonces then nonces[id] else 0;
        Rewrites(c, saved, connections, rows, rewritten, fails.Keys, id, nonce);
        rows := rows - {id};
        connections := connections[id := Some(Encrypt(c, password.value, nonce))];
        trace := trace + [connections];
        rewritten := rewritten + 1;
        StillSeen(c, saved, connections, rows, rewritten, fails.Keys);
      }
      Ends(c, saved, connections, rewritten, fails.Keys);
      if !commits {
        connections := saved;
        return Err(StoreFailed), trace + [connections];
      }
      return Ok(rewritten), trace;
    }
  }
}
