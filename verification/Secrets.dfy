/** Secret columns and the two start-up migrations (store.go). Sealing is taken as
    an exact inverse of opening: a sealed cell opens to the text it was made from. */
module Secrets {
  import opened Wrappers
  import opened Tables

  // encryptSecret; the nonce is drawn afresh for every call.
  function Encrypt(text: string, nonce: nat): Cell {
    if text == "" then Plain("") else Sealed(nonce, text)
  }

  // decryptSecret
  function Decrypt(c: Cell): Option<string> {
    match c
    case Plain(text) => Some(text)
    case Sealed(_, text) => Some(text)
    case Damaged => None
  }

  lemma DecryptEncrypt(text: string, nonce: nat)
    ensures Decrypt(Encrypt(text, nonce)) == Some(text)
    ensures Encrypt(text, nonce).Plain? <==> text == ""
  {
  }

  // encryptSecretForMigration
  function Protect(c: Cell, nonce: nat): Option<Cell> {
    match c
    case Plain(text) => Some(Encrypt(text, nonce))
    case Sealed(_, _) => Some(c)
    case Damaged => None
  }

  // A nullable secret column; NULL reads as the empty text.
  type Column = Option<Cell>

  function Stored(c: Column): Cell {
    if c.Some? then c.value else Plain("")
  }

  datatype SecretRow = SecretRow(password: Column, privateKey: Column, passphrase: Column)

  datatype View = View(password: string, privateKey: string, passphrase: string)

  // What the program reads from a row, or that it cannot.
  function ViewOf(r: SecretRow): Option<View> {
    match (Decrypt(Stored(r.password)), Decrypt(Stored(r.privateKey)), Decrypt(Stored(r.passphrase)))
    case (Some(a), Some(b), Some(c)) => Some(View(a, b, c))
    case _ => None
  }

  predicate Protected(c: Column) {
    c.Some? && (c.value.Sealed? || c.value == Plain(""))
  }

  predicate RowProtected(r: SecretRow) {
    Protected(r.password) && Protected(r.privateKey) && Protected(r.passphrase)
  }

  function ProtectRow(r: SecretRow, nonce: nat): Option<SecretRow> {
    match (Protect(Stored(r.password), nonce), Protect(Stored(r.privateKey), nonce + 1), Protect(Stored(r.passphrase), nonce + 2))
    case (Some(a), Some(b), Some(c)) => Some(SecretRow(Some(a), Some(b), Some(c)))
    case _ => None
  }

  ghost predicate Protects(after: SecretRow, before: SecretRow) {
    && RowProtected(after) && ViewOf(after) == ViewOf(before) && ViewOf(before).Some?
    && (RowProtected(before) ==> after == before)
  }

  // A row can be protected exactly when it can be read; it then reads the same,
  // and a protected row is left as it is.
  lemma ProtectRowMeans(r: SecretRow, nonce: nat)
    ensures ProtectRow(r, nonce).Some? <==> ViewOf(r).Some?
    ensures ProtectRow(r, nonce).Some? ==> Protects(ProtectRow(r, nonce).value, r)
  {
  }

  datatype Pending = Pending(id: int, row: SecretRow)

  // The table after the migration committed what it had read.
  ghost predicate Migrated(before: map<int, SecretRow>, after: map<int, SecretRow>, read: seq<int>) {
    && after.Keys == before.Keys
    && forall id | id in before :: if id in read then Protects(after[id], before[id]) else after[id] == before[id]
  }

  /** server_credentials, with the transaction that protects plain secrets. */
  class CredentialTable {
    var rows: map<int, SecretRow>

    constructor (rows: map<int, SecretRow>)
      ensures this.rows == rows
    {
      this.rows := rows;
    }

    /** migratePlaintextSecrets on the rows that the query yields before it ends or
        breaks off: the loop does not ask which. If they can all be read and every
        statement succeeds, exactly they are protected; else nothing changes. Statement
        `failing` is the first to fail: an UPDATE by its number, then the commit. */
    method ProtectAll(read: seq<int>, failing: nat) returns (ok: bool)
      requires forall id | id in read :: id in rows
      requires forall i, j | 0 <= i < j < |read| :: read[i] != read[j]
      modifies this
      ensures ok <==> failing > |read| && forall id | id in read :: ViewOf(old(rows)[id]).Some?
      ensures if ok then Migrated(old(rows), rows, read) else rows == old(rows)
    {
      var updates: seq<Pending> := [];
      for i := 0 to |read|
        invariant |updates| == i && rows == old(rows)
        invariant forall k | 0 <= k < i :: updates[k].id == read[k] && Protects(updates[k].row, rows[read[k]])
      {
        var id := read[i];
        assert id in read;
        var r := ProtectRow(rows[id], 3 * i);
        ProtectRowMeans(rows[id], 3 * i);
        if r.None? {
          return false;
        }
        updates := updates + [Pending(id, r.value)];
      }
      var tx := rows;
      for i := 0 to |updates|
        invariant tx.Keys == rows.Keys && rows == old(rows) && failing >= i
        invariant forall k | 0 <= k < i :: Protects(tx[read[k]], rows[read[k]])
        invariant forall k | i <= k < |read| :: tx[read[k]] == rows[read[k]]
        invariant forall id | id in rows && id !in read :: tx[id] == rows[id]
      {
        if failing == i {
          return false;
        }
        assert read[i] in read;
        tx := tx[updates[i].id := updates[i].row];
      }
      if failing == |updates| {
        return false;
      }
      rows := tx;
      return true;
    }
  }

  /** What the program reads from any row stays the same, protected rows are left
      alone, and every row is protected in the end if and only if every row that was
      not protected has been read. */
  lemma MigratedMeans(before: map<int, SecretRow>, after: map<int, SecretRow>, read: seq<int>)
    requires Migrated(before, after, read)
    ensures forall id | id in before :: ViewOf(after[id]) == ViewOf(before[id])
    ensures forall id | id in before && RowProtected(before[id]) :: after[id] == before[id]
    ensures (forall id | id in after :: RowProtected(after[id])) <==> (forall id | id in before && !RowProtected(before[id]) :: id in read)
  {
    assert forall id | id in before && id in read :: Protects(after[id], before[id]);
  }

  // Protecting twice changes no more.
  lemma MigratedTwice(a: map<int, SecretRow>, b: map<int, SecretRow>, c: map<int, SecretRow>, first: seq<int>, second: seq<int>)
    requires Migrated(a, b, first) && Migrated(b, c, second) && forall id | id in second :: id in first
    ensures c == b
  {
    forall id | id in b ensures c[id] == b[id] {
      if id in second {
        assert Protects(b[id], a[id]) && Protects(c[id], b[id]);
      }
    }
  }

  /** A read that breaks off after the first of two plain rows: the migration commits
      and reports success, and the second row stays in plain text. */
  method BrokenReadCommits(secret: string) returns (rows: map<int, SecretRow>, ok: bool)
    requires secret != ""
    ensures ok && rows.Keys == {1, 2} && RowProtected(rows[1]) && rows[2].password == Some(Plain(secret))
  {
    var plain := SecretRow(Some(Plain(secret)), None, None);
    var before := map[1 := plain, 2 := plain];
    var table := new CredentialTable(before);
    ok := table.ProtectAll([1], 2);
    assert ViewOf(plain).Some?;
    rows := table.rows;
    assert Migrated(before, rows, [1]);
    assert 1 in [1] && 2 !in [1];
  }

  // ---- from login names to row keys ----

  // The table keyed by login name that old installations have: rows in the order
  // they are read, and the links by login name.
  datatype OldRow = OldRow(name: string, host: string, port: int, enabled: bool, credential: Option<int>, notes: Notes)

  // The result of the last test and the time stamps of a row.
  datatype Notes = Notes(testedAt: Option<int>, testOk: Option<bool>, testError: Option<string>, created: int, updated: int)

  ghost predicate DistinctNames(rows: seq<OldRow>) {
    forall i, j | 0 <= i < j < |rows| :: rows[i].name != rows[j].name
  }

  function NewRow(r: OldRow): Server {
    Server(r.name, r.host, r.port, Fixed, 1, 65535, r.enabled, r.credential, SshServer, NoHash)
  }

  // The servers schema: keyed by login name, or by generated key with links by key.
  datatype Schema =
    | Legacy(rows: seq<OldRow>, namedLinks: set<(string, int)>)
    | Keyed(servers: map<int, Server>, notes: map<int, Notes>, next: int, links: set<(int, int)>)

  class ServerTables {
    var schema: Schema

    constructor (schema: Schema)
      ensures this.schema == schema
    {
      this.schema := schema;
    }

    /** migrateServersToAutoIncrementID: rebuilds a legacy table once. Every row
        gets its own key and keeps its fields, and a login is linked to the same
        credentials as before; a rebuilt table is left alone. `failing` says that some
        statement of the transaction fails: then nothing changes. */
    method Rebuild(failing: bool) returns (ok: bool)
      requires schema.Legacy? ==> DistinctNames(schema.rows)
      modifies this
      ensures old(schema).Keyed? ==> ok && schema == old(schema)
      ensures !ok ==> schema == old(schema)
      ensures old(schema).Legacy? ==> ok == !failing
      ensures old(schema).Legacy? && ok ==> schema.Keyed? && Rebuilt(old(schema), schema)
    {
      match schema {
        case Keyed(_, _, _, _) =>
          return true;
        case Legacy(rows, namedLinks) =>
          var servers: map<int, Server>, notes: map<int, Notes>, next := map[], map[], 1;
          for i := 0 to |rows|
            invariant next == i + 1
            invariant forall k :: k in servers <==> 1 <= k <= i
            invariant forall k :: k in notes <==> 1 <= k <= i
            invariant forall k | 0 <= k < i :: servers[k + 1] == NewRow(rows[k]) && notes[k + 1] == rows[k].notes
          {
            servers := servers[next := NewRow(rows[i])];
            notes := notes[next := rows[i].notes];
            next := next + 1;
          }
          var links := set p, k | p in namedLinks && k in servers && servers[k].name == p.0 :: (k, p.1);
          if failing {
            return false;
          }
          schema := Keyed(servers, notes, next, links);
          return true;
      }
    }
  }

  ghost predicate Rebuilt(before: Schema, after: Schema)
    requires before.Legacy? && after.Keyed?
  {
    && (forall i | 0 <= i < |before.rows| ::
          var r := before.rows[i];
          i + 1 in after.servers
          && after.servers[i + 1] == Server(r.name, r.host, r.port, Fixed, 1, 65535, r.enabled, r.credential, SshServer, NoHash))
    && (forall i | 0 <= i < |before.rows| :: i + 1 in after.notes && after.notes[i + 1] == before.rows[i].notes)
    && (forall k :: k in after.notes <==> k in after.servers)
    && (forall k | k in after.servers :: 1 <= k <= |before.rows| && k < after.next)
    && (forall k, c :: (k, c) in after.links <==> k in after.servers && (after.servers[k].name, c) in before.namedLinks)
  }

  /** The rebuilt tables relate the same logins to the same credentials, for every
      login that has a row, and no two logins share a key. */
  lemma RebuildKeepsTheRelation(before: Schema, after: Schema, name: string, c: int)
    requires before.Legacy? && after.Keyed? && DistinctNames(before.rows) && Rebuilt(before, after)
    ensures UniqueNames(after.servers)
    ensures (exists k :: Named(after.servers, name, k)) <==> (exists i | 0 <= i < |before.rows| :: before.rows[i].name == name)
    ensures (exists i | 0 <= i < |before.rows| :: before.rows[i].name == name) ==>
              ((exists k :: Named(after.servers, name, k) && (k, c) in after.links) <==> (name, c) in before.namedLinks)
    ensures forall p | p in after.links :: p.0 in after.servers
  {
    forall j, k | j in after.servers && k in after.servers && after.servers[j].name == after.servers[k].name
      ensures j == k
    {
      assert after.servers[j - 1 + 1] == NewRow(before.rows[j - 1]);
      assert after.servers[k - 1 + 1] == NewRow(before.rows[k - 1]);
    }
    forall p | p in after.links ensures p.0 in after.servers {
      var k, d := p.0, p.1;
      assert p == (k, d);
      assert (k, d) in after.links;
    }
    if i :| 0 <= i < |before.rows| && before.rows[i].name == name {
      assert Named(after.servers, name, i + 1);
    }
    if k :| Named(after.servers, name, k) {
      assert after.servers[k - 1 + 1] == NewRow(before.rows[k - 1]);
    }
  }
}
