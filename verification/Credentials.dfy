/** The many-to-many relation between servers and client credentials, and what the
    operations on it mean (store.go). */
module Credentials {
  import opened Wrappers
  import opened Tables

  // Rows that refer to others refer to existing ones.
  ghost predicate Refs(db: Db) {
    && (forall p | p in db.links :: p.0 in db.servers && p.1 in db.clientCredentials)
    && (forall id | id in db.servers :: 0 < id < db.nextServer)
    && UniqueNames(db.servers)
  }

  // ---- bulk operations ----

  datatype Operation = Replace | Add | Remove

  function ParseOperation(text: string): Option<Operation> {
    if text == "replace" then Some(Replace)
    else if text == "add" then Some(Add)
    else if text == "remove" then Some(Remove)
    else None
  }

  // What one listed server is linked to afterwards.
  function Combine(before: set<int>, listed: set<int>, op: Operation): set<int> {
    match op
    case Replace => listed
    case Add => before + listed
    case Remove => before - listed
  }

  function CredentialsOf(links: set<(int, int)>, server: int): set<int> {
    set p | p in links && p.0 == server :: p.1
  }

  // Listed servers get the combined set, every other server keeps its own.
  ghost predicate BulkLinks(before: set<(int, int)>, after: set<(int, int)>, servers: set<int>, listed: set<int>, op: Operation) {
    forall s :: CredentialsOf(after, s) ==
                if s in servers then Combine(CredentialsOf(before, s), listed, op) else CredentialsOf(before, s)
  }

  // A relation is determined by the credentials of every server.
  lemma LinksAreDetermined(a: set<(int, int)>, b: set<(int, int)>)
    requires forall s :: CredentialsOf(a, s) == CredentialsOf(b, s)
    ensures a == b
  {
    forall p ensures p in a <==> p in b {
      assert p.1 in CredentialsOf(a, p.0) <==> p in a;
      assert p.1 in CredentialsOf(b, p.0) <==> p in b;
    }
  }

  // A bulk operation repeated changes nothing more.
  lemma BulkTwice(a: set<(int, int)>, b: set<(int, int)>, c: set<(int, int)>, servers: set<int>, listed: set<int>, op: Operation)
    requires BulkLinks(a, b, servers, listed, op) && BulkLinks(b, c, servers, listed, op)
    ensures b == c
  {
    forall s ensures CredentialsOf(b, s) == CredentialsOf(c, s) {
    }
    LinksAreDetermined(b, c);
  }

  // A replacement makes every bulk operation before it on the same servers irrelevant.
  lemma ReplaceForgets(
    a: set<(int, int)>, b: set<(int, int)>, c: set<(int, int)>, servers: set<int>, first: set<int>, op: Operation, listed: set<int>)
    requires BulkLinks(a, b, servers, first, op) && BulkLinks(b, c, servers, listed, Replace)
    ensures BulkLinks(a, c, servers, listed, Replace)
  {
  }

  /** Removing what was just added restores the relation exactly when none of it was
      there before. */
  lemma RemoveUndoesAddIff(a: set<(int, int)>, b: set<(int, int)>, c: set<(int, int)>, servers: set<int>, listed: set<int>)
    requires BulkLinks(a, b, servers, listed, Add) && BulkLinks(b, c, servers, listed, Remove)
    ensures c == a <==> forall s | s in servers :: CredentialsOf(a, s) !! listed
  {
    forall s ensures CredentialsOf(c, s) == if s in servers then CredentialsOf(a, s) - listed else CredentialsOf(a, s) {
      assert s in servers ==> CredentialsOf(b, s) == CredentialsOf(a, s) + listed;
    }
    if forall s | s in servers :: CredentialsOf(a, s) !! listed {
      forall s ensures CredentialsOf(c, s) == CredentialsOf(a, s) {
      }
      LinksAreDetermined(c, a);
    }
    if c == a {
      forall s | s in servers ensures CredentialsOf(a, s) !! listed {
        assert CredentialsOf(a, s) == CredentialsOf(a, s) - listed;
      }
    }
  }

  // ---- one credential ----

  // The request body of an update; empty texts mean "not given".
  datatype Update = Update(caption: string, auth: string, publicKey: string, password: string)

  function Given(text: string): Option<string> {
    if text == "" then None else Some(text)
  }

  // A column that is not given keeps what is stored; an empty text is stored as NULL.
  function Keep(given: string, stored: Option<string>): Option<string> {
    if given != "" then Some(given) else if stored.Some? then Given(stored.value) else None
  }

  // bcrypt refuses a longer password.
  const MAX_PASSWORD := 72

  // clientCredentialAuthColumns; `digest` is the hash computed for a given password.
  function AuthColumns(u: Update, existing: Option<ClientCredential>, digest: string): Option<ClientCredential> {
    if u.auth == "public_key" then
      Some(ClientCredential(u.caption, PublicKey, Keep(u.publicKey, if existing.Some? then existing.value.publicKey else None), None))
    else if u.auth == "password" && |u.password| <= MAX_PASSWORD then
      Some(ClientCredential(u.caption, Password, None,
                            if u.password != "" then Some(digest)
                            else if existing.Some? then Keep("", existing.value.passwordHash) else None))
    else None
  }

  // What an update makes of the stored row: the caption and type sent; of the column
  // that type uses what was sent, else what was stored in it; of the other nothing.
  ghost predicate UpdatedRow(before: ClientCredential, u: Update, digest: string, after: ClientCredential) {
    && after.caption == u.caption
    && (u.auth == "public_key" ==>
          && after.auth == PublicKey && after.passwordHash == None
          && (u.publicKey != "" ==> after.publicKey == Some(u.publicKey))
          && (u.publicKey == "" ==> after.publicKey == if before.publicKey == Some("") then None else before.publicKey))
    && (u.auth == "password" ==>
          && after.auth == Password && after.publicKey == None
          && (u.password != "" ==> after.passwordHash == Some(digest))
          && (u.password == "" ==> after.passwordHash == if before.passwordHash == Some("") then None else before.passwordHash))
  }

  // The columns a credential of this type does not use are NULL, and none is empty.
  predicate Canonical(c: ClientCredential) {
    && (c.auth == PublicKey ==> c.passwordHash == None)
    && (c.auth == Password ==> c.publicKey == None)
    && c.publicKey != Some("") && c.passwordHash != Some("")
  }

  // Every stored row is of this form, whatever was stored before.
  lemma StoredRowsAreCanonical(u: Update, existing: Option<ClientCredential>, digest: string)
    requires digest != "" && AuthColumns(u, existing, digest).Some?
    ensures Canonical(AuthColumns(u, existing, digest).value)
  {
  }

  // The servers with one of these names.
  function IdsOf(servers: map<int, Server>, names: seq<string>): set<int> {
    set id | id in servers && servers[id].name in names
  }

  // The names linked to a credential.
  function NamesOf(db: Db, credential: int): set<string> {
    set p | p in db.links && p.1 == credential && p.0 in db.servers :: db.servers[p.0].name
  }

  ghost predicate Known(servers: map<int, Server>, name: string) {
    exists id :: Named(servers, name, id)
  }

  // A name of an existing server listed twice violates the primary key.
  ghost predicate ListedOnce(servers: map<int, Server>, names: seq<string>) {
    forall i, j | 0 <= i < j < |names| && names[i] == names[j] :: !Known(servers, names[i])
  }

  function Relink(db: Db, id: int, names: seq<string>): set<(int, int)> {
    (set p | p in db.links && p.1 != id) + (set s | s in IdsOf(db.servers, names) :: (s, id))
  }

  // UpdateClientCredential as one transaction.
  ghost function UpdateCredential(db: Db, id: int, u: Update, names: seq<string>, digest: string): Option<Db> {
    if id !in db.clientCredentials then None
    else
      match AuthColumns(u, Some(db.clientCredentials[id]), digest)
      case None => None
      case Some(row) =>
        if !ListedOnce(db.servers, names) then None
        else Some(db.(clientCredentials := db.clientCredentials[id := row], links := Relink(db, id, names)))
  }

  /** Updating one credential links it to exactly the named servers and leaves every
      other credential's row and links alone. */
  lemma UpdateCredentialMeans(db: Db, id: int, u: Update, names: seq<string>, digest: string, other: int)
    requires Refs(db) && UpdateCredential(db, id, u, names, digest).Some?
    ensures var db' := UpdateCredential(db, id, u, names, digest).value;
            && Refs(db')
            && NamesOf(db', id) == (set n | n in names && Known(db.servers, n))
            && (other != id ==> NamesOf(db', other) == NamesOf(db, other))
            && (other != id && other in db.clientCredentials ==> db'.clientCredentials[other] == db.clientCredentials[other])
            && db'.servers == db.servers && db'.clientCredentials.Keys == db.clientCredentials.Keys
  {
    var db' := UpdateCredential(db, id, u, names, digest).value;
    forall n ensures n in NamesOf(db', id) <==> n in names && Known(db.servers, n) {
      if n in names && Known(db.servers, n) {
        var s :| Named(db.servers, n, s);
        assert (s, id) in db'.links;
      }
      if n in NamesOf(db', id) {
        var p :| p in db'.links && p.1 == id && p.0 in db'.servers && db'.servers[p.0].name == n;
        assert Named(db.servers, n, p.0);
      }
    }
    if other != id {
      forall n ensures n in NamesOf(db', other) <==> n in NamesOf(db, other) {
        if n in NamesOf(db, other) {
          var p :| p in db.links && p.1 == other && p.0 in db.servers && db.servers[p.0].name == n;
          assert p in db'.links;
        }
        if n in NamesOf(db', other) {
          var p :| p in db'.links && p.1 == other && p.0 in db'.servers && db'.servers[p.0].name == n;
          assert p in db.links;
        }
      }
    }
  }

  // Sending back what is stored, with no password, changes neither key nor hash.
  lemma EchoKeepsSecrets(existing: ClientCredential, digest: string)
    requires Canonical(existing)
    ensures AuthColumns(Echo(existing), Some(existing), digest) == Some(existing)
  {
  }

  // What the import page sends back for a credential it does not edit.
  function Echo(c: ClientCredential): Update {
    Update(c.caption, if c.auth == PublicKey then "public_key" else "password",
           if c.publicKey.Some? then c.publicKey.value else "", "")
  }
}
