/** The store (store.go, enrollment.go): methods that update the database. A
    transaction works on a copy that replaces the database when it commits. */
module Stores {
  import opened Wrappers
  import opened Decimal
  import opened Tables
  import opened EnrollmentTokens
  import opened Registration
  import opened Routing
  import opened Credentials

  function Elements<T>(s: seq<T>): set<T> {
    set x | x in s
  }

  // The first occurrences of a list's elements, in order.
  function Distinct(ids: seq<int>): seq<int> {
    if ids == [] then []
    else
      var front, id := ids[..|ids| - 1], ids[|ids| - 1];
      if id in front then Distinct(front) else Distinct(front) + [id]
  }

  lemma {:induction false} DistinctMeans(ids: seq<int>)
    ensures Elements(Distinct(ids)) == Elements(ids)
    ensures forall i, j | 0 <= i < j < |Distinct(ids)| :: Distinct(ids)[i] != Distinct(ids)[j]
  {
    if ids == [] {
    } else {
      var front, id := ids[..|ids| - 1], ids[|ids| - 1];
      DistinctMeans(front);
      assert ids == front + [id];
      assert forall x :: x in Distinct(front) <==> x in Elements(Distinct(front));
      assert forall x :: x in front <==> x in Elements(front);
    }
  }

  ghost predicate AllPositive(ids: seq<int>) {
    ids != [] && forall id | id in ids :: id > 0
  }

  /** uniquePositiveIDs: duplicates go, and an empty list or a key that is not
      positive is refused. */
  method UniquePositiveIDs(ids: seq<int>) returns (r: Result<seq<int>>)
    ensures r == if AllPositive(ids) then Ok(Distinct(ids)) else Err("keys")
    ensures r.Ok? ==> Elements(r.value) == Elements(ids)
  {
    if ids == [] {
      return Err("keys");
    }
    var unique: seq<int> := [];
    for i := 0 to |ids|
      invariant unique == Distinct(ids[..i]) && Elements(unique) == Elements(ids[..i])
      invariant forall k | 0 <= k < i :: ids[k] > 0
    {
      assert ids[..i + 1][..i] == ids[..i];
      DistinctMeans(ids[..i + 1]);
      assert ids[i] in unique <==> ids[i] in Elements(unique);
      assert ids[i] in ids;
      if ids[i] <= 0 {
        return Err("keys");
      }
      if ids[i] !in unique {
        unique := unique + [ids[i]];
      }
    }
    assert ids[..|ids|] == ids;
    return Ok(unique);
  }

  // ---- bulk updates ----

  ghost predicate AllSsh(servers: map<int, Server>, ids: seq<int>) {
    forall id | id in ids :: id in servers && servers[id].kind == SshServer
  }

  // What BulkUpdateServerCredential demands of its arguments.
  ghost predicate ServerBulkOk(db: Db, servers: seq<int>, credential: int, operation: string) {
    && AllPositive(servers) && AllSsh(db.servers, servers)
    && (operation == "remove" || (operation == "replace" && credential > 0 && credential in db.serverCredentials))
  }

  function Assigned(servers: map<int, Server>, ids: set<int>, credential: Option<int>): map<int, Server> {
    map id | id in servers :: if id in ids then servers[id].(credential := credential) else servers[id]
  }

  // What BulkUpdateClientCredentials demands of its arguments.
  ghost predicate ClientBulkOk(db: Db, servers: seq<int>, credentials: seq<int>, operation: string) {
    && AllPositive(servers) && AllPositive(credentials)
    && (operation == "replace" || operation == "add" || operation == "remove")
    && Elements(servers) <= db.servers.Keys && Elements(credentials) <= db.clientCredentials.Keys
  }

  // What the operation's name makes of one listed server's credentials.
  ghost predicate Requested(operation: string, before: set<int>, listed: set<int>, after: set<int>) {
    && (operation == "replace" ==> after == listed)
    && (operation == "add" ==> after == before + listed)
    && (operation == "remove" ==> after == before - listed)
  }

  // INSERT OR IGNORE and DELETE of one pair.
  function Relate(links: set<(int, int)>, server: int, credential: int, op: Operation): set<(int, int)> {
    if op == Remove then links - {(server, credential)} else links + {(server, credential)}
  }

  lemma RelateMeans(links: set<(int, int)>, server: int, credential: int, op: Operation, s: int)
    ensures CredentialsOf(Relate(links, server, credential, op), s) ==
            if s != server then CredentialsOf(links, s)
            else if op == Remove then CredentialsOf(links, s) - {credential} else CredentialsOf(links, s) + {credential}
  {
    var after := Relate(links, server, credential, op);
    forall c ensures c in CredentialsOf(after, s) <==> (s, c) in after {
    }
    forall c ensures c in CredentialsOf(links, s) <==> (s, c) in links {
    }
  }

  function Cleared(links: set<(int, int)>, server: int): set<(int, int)> {
    set p | p in links && p.0 != server
  }

  lemma ClearedMeans(links: set<(int, int)>, server: int, s: int)
    ensures CredentialsOf(Cleared(links, server), s) == if s == server then {} else CredentialsOf(links, s)
  {
  }

  // One server's pairs after the first part of the credential list.
  ghost predicate PartlyLinked(before: set<(int, int)>, after: set<(int, int)>, server: int, listed: set<int>, op: Operation) {
    forall s :: CredentialsOf(after, s) ==
                if s == server then Combine(CredentialsOf(before, s), listed, op) else CredentialsOf(before, s)
  }

  lemma RelateOne(before: set<(int, int)>, links: set<(int, int)>, server: int, listed: set<int>, op: Operation, c: int)
    requires PartlyLinked(before, links, server, listed, op)
    ensures PartlyLinked(before, Relate(links, server, c, op), server, listed + {c}, op)
  {
    forall s ensures CredentialsOf(Relate(links, server, c, op), s) ==
                     if s == server then Combine(CredentialsOf(before, s), listed + {c}, op) else CredentialsOf(before, s)
    {
      RelateMeans(links, server, c, op, s);
    }
  }

  lemma StartLinking(links: set<(int, int)>, server: int, op: Operation)
    ensures PartlyLinked(links, if op == Replace then Cleared(links, server) else links, server, {}, op)
  {
    forall s ensures CredentialsOf(if op == Replace then Cleared(links, server) else links, s) ==
                     if s == server then Combine(CredentialsOf(links, s), {}, op) else CredentialsOf(links, s)
    {
      ClearedMeans(links, server, s);
    }
  }

  // Linking one more listed server; one that was done before is left as it was.
  lemma LinkNext(first: set<(int, int)>, before: set<(int, int)>, after: set<(int, int)>, done: set<int>, server: int, listed: set<int>, op: Operation)
    requires BulkLinks(first, before, done, listed, op) && PartlyLinked(before, after, server, listed, op)
    ensures BulkLinks(first, after, done + {server}, listed, op)
  {
    forall s ensures CredentialsOf(after, s) ==
                     if s in done + {server} then Combine(CredentialsOf(first, s), listed, op) else CredentialsOf(first, s)
    {
    }
  }

  lemma ElementsSnoc(s: seq<int>, i: nat)
    requires i < |s|
    ensures Elements(s[..i + 1]) == Elements(s[..i]) + {s[i]}
  {
  }

  lemma ElementsWhole(s: seq<int>)
    ensures Elements(s[..|s|]) == Elements(s) && Elements(s[..0]) == {}
  {
    assert s[..|s|] == s;
  }

  method LinkServer(before: set<(int, int)>, server: int, credentials: seq<int>, op: Operation) returns (links: set<(int, int)>)
    ensures PartlyLinked(before, links, server, Elements(credentials), op)
  {
    links := before;
    if op == Replace {
      links := Cleared(links, server);
    }
    StartLinking(before, server, op);
    ElementsWhole(credentials);
    for j := 0 to |credentials|
      invariant PartlyLinked(before, links, server, Elements(credentials[..j]), op)
    {
      RelateOne(before, links, server, Elements(credentials[..j]), op, credentials[j]);
      ElementsSnoc(credentials, j);
      links := Relate(links, server, credentials[j], op);
    }
  }

  // ---- name lookups ----

  // The row a statement with WHERE proxy_user = ? finds.
  method FindNamed(servers: map<int, Server>, name: string) returns (row: Option<int>)
    ensures match row
            case Some(id) => Named(servers, name, id)
            case None => forall id :: !Named(servers, name, id)
  {
    if exists id | id in servers :: servers[id].name == name {
      var id :| id in servers && servers[id].name == name;
      return Some(id);
    }
    return None;
  }

  // ---- deleting a route ----

  // The route and its links are gone, token and host rows that referred to it refer
  // to none, and nothing else is different.
  ghost predicate RouteDeleted(before: Db, after: Db, id: int) {
    && after.servers.Keys == before.servers.Keys - {id}
    && (forall s | s in after.servers :: after.servers[s] == before.servers[s])
    && (forall s :: CredentialsOf(after.links, s) == if s == id then {} else CredentialsOf(before.links, s))
    && after.enrollments.Keys == before.enrollments.Keys
    && (forall h | h in before.enrollments ::
          if before.enrollments[h].server == Some(id)
          then after.enrollments[h] == before.enrollments[h].(server := None)
          else after.enrollments[h] == before.enrollments[h])
    && after.hosts.Keys == before.hosts.Keys
    && (forall f | f in before.hosts :: after.hosts[f] == if before.hosts[f] == Some(id) then None else before.hosts[f])
    && after.nextServer == before.nextServer && after.serverCredentials == before.serverCredentials
    && after.clientCredentials == before.clientCredentials && after.nextEnrollment == before.nextEnrollment
    && after.settings == before.settings
  }

  lemma DeletionIs(db: Db, id: int)
    ensures RouteDeleted(db, DeleteServer(db, id), id)
  {
    forall s ensures CredentialsOf(DeleteServer(db, id).links, s) == if s == id then {} else CredentialsOf(db.links, s) {
    }
  }

  lemma NameOfLink(db: Db, name: string, credential: int) returns (id: int)
    requires name in NamesOf(db, credential)
    ensures Named(db.servers, name, id) && credential in CredentialsOf(db.links, id)
  {
    var p :| p in db.links && p.1 == credential && p.0 in db.servers && db.servers[p.0].name == name;
    id := p.0;
  }

  lemma LinkNames(db: Db, id: int, credential: int)
    requires id in db.servers && credential in CredentialsOf(db.links, id)
    ensures db.servers[id].name in NamesOf(db, credential)
  {
    assert (id, credential) in db.links;
  }

  /** Deleting a route takes its login, and no other, from every credential, and the
      tables stay sound. */
  lemma DeletionForgetsTheLogin(before: Db, after: Db, id: int, credential: int)
    requires Refs(before) && id in before.servers && RouteDeleted(before, after, id)
    ensures Refs(after)
    ensures NamesOf(after, credential) == NamesOf(before, credential) - {before.servers[id].name}
  {
    forall p | p in after.links ensures p in before.links && p.0 != id {
      assert p.1 in CredentialsOf(after.links, p.0);
    }
    forall n ensures n in NamesOf(after, credential) <==> n in NamesOf(before, credential) - {before.servers[id].name} {
      if n in NamesOf(after, credential) {
        var s := NameOfLink(after, n, credential);
        assert s in before.servers && before.servers[s] == after.servers[s];
        LinkNames(before, s, credential);
      }
      if n in NamesOf(before, credential) && n != before.servers[id].name {
        var s := NameOfLink(before, n, credential);
        LinkNames(after, s, credential);
      }
    }
  }

  // A route that holds the hash and accepts this host name.
  ghost predicate DeviceAnswer(db: Db, hash: Hash, hostname: string, id: int) {
    IsDeviceRow(db, hash, id) && db.servers[id].enabled && EnrollmentAgrees(db, hash, hostname)
  }

  ghost predicate NoDeviceRow(db: Db, hash: Hash) {
    forall id :: !IsDeviceRow(db, hash, id)
  }

  predicate AwaitsClaim(db: Db, hash: Hash, hostname: string) {
    ValidHostname(hostname) && Claimable(db, hash)
  }

  // authenticateAgent from one database to the next: a route that holds the hash
  // answers, else an unused token creates a route if `register` is set.
  ghost predicate Authenticated(before: Db, after: Db, hash: Hash, hostname: string, register: bool, r: Result<int>) {
    match r
    case Ok(id) =>
      || (after == before && DeviceAnswer(before, hash, hostname, id))
      || (NoDeviceRow(before, hash) && AwaitsClaim(before, hash, hostname)
          && if register then ClaimEnrollment(before, hash, hostname) == Ok(Bound(after, id)) else id == 0 && after == before)
    case Err(_) =>
      after == before && (
        || (exists id :: IsDeviceRow(before, hash, id) && !DeviceAnswer(before, hash, hostname, id))
        || (NoDeviceRow(before, hash)
            && (!AwaitsClaim(before, hash, hostname) || (register && ClaimEnrollment(before, hash, hostname).Err?))))
  }

  predicate HoldsKey(db: Db, hash: Hash) {
    db.settings.Some? && db.settings.value.hash == hash
  }

  // resolveAgent from one database to the next.
  ghost predicate AgentResolved(before: Db, after: Db, hash: Hash, hostname: string, register: bool, r: Result<(int, Hash)>) {
    if !HoldsKey(before, hash) then
      && Authenticated(before, after, hash, hostname, register, if r.Ok? then Ok(r.value.0) else Err(""))
      && (r.Ok? ==> r.value.1 == hash)
    else if !before.settings.value.enabled || !ValidHostname(hostname) then r.Err? && after == before
    else if !register then r == Ok((0, PeerHash(hash, hostname))) && after == before
    else
      match RegisterShared(before, hash, hostname)
      case Err(_) => r.Err? && after == before
      case Ok(b) => r == Ok((b.id, PeerHash(hash, hostname))) && after == b.db
  }

  lemma RuleTried(servers: map<int, Server>, login: string, id: int)
    requires RouteTableOk(servers) && id in servers && servers[id].mode == DynamicPort
    ensures forall port :: RuleMatch(servers, login, id, port) <==> TryRule(servers[id], login) == Some(port)
  {
    forall port ensures RuleMatch(servers, login, id, port) <==> TryRule(servers[id], login) == Some(port) {
      TryRuleMeans(servers[id], login, port);
    }
  }

  // Of two matching rules, one that is not longer in characters is not longer.
  lemma RankedBelow(a: Server, b: Server, login: string, p: int, q: int)
    requires RouteOk(a) && RouteOk(b) && Matches(a, login, p) && Matches(b, login, q) && NulFree(login)
    requires SqlLength(a.name, false) >= SqlLength(b.name, false)
    ensures |b.name| <= |a.name|
  {
    if |b.name| > |a.name| {
      MatchesOrdered(a, b, login, p, q);
    }
  }

  // Every dynamic rule is in the scan, no higher than the rows before it.
  lemma ScanPosition(servers: map<int, Server>, rows: seq<int>, rest: seq<int>, id: int) returns (j: nat)
    requires IsScan(servers, rows + rest) && id in servers && servers[id].mode == DynamicPort
    ensures j < |rows + rest| && (rows + rest)[j] == id
    ensures j < |rows| ==> rows[j] == id
    ensures forall i | 0 <= i < |rows| && i <= j :: rows[i] in servers && SqlLength(servers[rows[i]].name, false) >= SqlLength(servers[id].name, false)
  {
    var scan := rows + rest;
    assert id in scan;
    j :| 0 <= j < |scan| && scan[j] == id;
    forall i | 0 <= i < |rows| && i <= j
      ensures rows[i] in servers && SqlLength(servers[rows[i]].name, false) >= SqlLength(servers[id].name, false)
    {
      assert scan[i] == rows[i] && scan[i] in scan;
    }
  }

  lemma RowsAreRules(servers: map<int, Server>, rows: seq<int>)
    requires IsPartOfScan(servers, rows)
    ensures forall id | id in rows :: id in servers && servers[id].mode == DynamicPort
  {
    var rest :| IsScan(servers, rows + rest);
    assert forall id | id in rows :: id in rows + rest;
  }

  // In a scan by falling length the first rule that matches is a longest one.
  lemma FirstTriedWins(servers: map<int, Server>, login: string, rows: seq<int>, i: nat, port: int)
    requires RouteTableOk(servers) && NulFree(login)
    requires IsPartOfScan(servers, rows) && i < |rows| && RuleMatch(servers, login, rows[i], port)
    requires forall k, p | 0 <= k < i :: !RuleMatch(servers, login, rows[k], p)
    requires forall id :: !FixedMatch(servers, login, id)
    ensures Resolves(servers, login, Some(Route(rows[i], port)))
  {
    var rest :| IsScan(servers, rows + rest);
    forall id, p | RuleMatch(servers, login, id, p) ensures |servers[id].name| <= |servers[rows[i]].name| {
      var j := ScanPosition(servers, rows, rest, id);
      assert j >= i;
      RankedBelow(servers[rows[i]], servers[id], login, port, p);
    }
  }

  // A fruitless scan says that no rule matches exactly if it read all that do.
  lemma NoneTried(servers: map<int, Server>, login: string, rows: seq<int>)
    requires forall k, p | 0 <= k < |rows| :: !RuleMatch(servers, login, rows[k], p)
    requires forall id :: !FixedMatch(servers, login, id)
    ensures Resolves(servers, login, None) <==> forall id, p | RuleMatch(servers, login, id, p) :: id in rows
  {
    if forall id, p | RuleMatch(servers, login, id, p) :: id in rows {
      forall id, p ensures !RuleMatch(servers, login, id, p) {
        assert RuleMatch(servers, login, id, p) ==> id in rows;
      }
    }
  }

  /** The store object. */
  class Store {
    var db: Db

    constructor (db: Db)
      ensures this.db == db
    {
      this.db := db;
    }

    /** The scan finds the route the specification selects, for every login without a
        NUL; it reports none although one matches exactly if it broke off before the
        rules that match. `rows` is what is read. */
    method ResolveServer(login: string, rows: seq<int>) returns (r: Option<Route>)
      requires RouteTableOk(db.servers) && IsPartOfScan(db.servers, rows)
      ensures r.Some? ==> FixedMatch(db.servers, login, r.value.id) || RuleMatch(db.servers, login, r.value.id, r.value.port)
      ensures NulFree(login) ==>
                (Resolves(db.servers, login, r)
                 <==> r.Some? || forall id, p | RuleMatch(db.servers, login, id, p) :: id in rows)
    {
      if exists id | id in db.servers :: FixedMatch(db.servers, login, id) {
        var id :| id in db.servers && FixedMatch(db.servers, login, id);
        return Some(Route(id, db.servers[id].port));
      }
      RowsAreRules(db.servers, rows);
      for i := 0 to |rows|
        invariant forall k, port | 0 <= k < i :: !RuleMatch(db.servers, login, rows[k], port)
      {
        var id := rows[i];
        assert id in rows;
        var port := TryRule(db.servers[id], login);
        RuleTried(db.servers, login, id);
        if port.Some? {
          if NulFree(login) {
            FirstTriedWins(db.servers, login, rows, i, port.value);
          }
          return Some(Route(id, port.value));
        }
      }
      NoneTried(db.servers, login, rows);
      return None;
    }

    method BulkUpdateServerCredential(serverIDs: seq<int>, credential: int, operation: string) returns (ok: bool)
      modifies this
      ensures ok <==> ServerBulkOk(old(db), serverIDs, credential, operation)
      ensures !ok ==> db == old(db)
      ensures db == old(db).(servers := db.servers) && db.servers.Keys == old(db).servers.Keys
      ensures ok ==> forall id | id in db.servers ::
                db.servers[id] == if id !in serverIDs then old(db).servers[id]
                                  else old(db).servers[id].(credential := if operation == "replace" then Some(credential) else None)
    {
      var ids := UniquePositiveIDs(serverIDs);
      if ids.Err? || (operation != "replace" && operation != "remove") || (operation == "replace" && credential <= 0) {
        return false;
      }
      if operation == "replace" && credential !in db.serverCredentials {
        return false;
      }
      SameSsh(db.servers, ids.value, serverIDs);
      var ssh := AreSsh(db.servers, ids.value);
      if !ssh {
        return false;
      }
      var tx := db.servers;
      var c := if operation == "replace" then Some(credential) else None;
      ElementsWhole(ids.value);
      for i := 0 to |ids.value|
        invariant db == old(db) && tx == Assigned(db.servers, Elements(ids.value[..i]), c)
      {
        ElementsSnoc(ids.value, i);
        var id := ids.value[i];
        assert id in ids.value;
        tx := tx[id := tx[id].(credential := c)];
      }
      assert forall id :: id in serverIDs <==> id in Elements(serverIDs);
      db := db.(servers := tx);
      return true;
    }

    /** Replace, add or remove on exactly the listed servers; on any error nothing. */
    method BulkUpdateClientCredentials(serverIDs: seq<int>, credentialIDs: seq<int>, operation: string) returns (ok: bool)
      modifies this
      ensures ok <==> ClientBulkOk(old(db), serverIDs, credentialIDs, operation)
      ensures db == old(db).(links := db.links)
      ensures if ok
              then BulkLinks(old(db).links, db.links, Elements(serverIDs), Elements(credentialIDs), ParseOperation(operation).value)
              else db.links == old(db).links
      ensures ok ==> forall s :: if s in serverIDs
                                 then Requested(operation, CredentialsOf(old(db).links, s), Elements(credentialIDs), CredentialsOf(db.links, s))
                                 else CredentialsOf(db.links, s) == CredentialsOf(old(db).links, s)
    {
      var servers := UniquePositiveIDs(serverIDs);
      var credentials := UniquePositiveIDs(credentialIDs);
      var op := ParseOperation(operation);
      if servers.Err? || credentials.Err? || op.None? {
        return false;
      }
      var found := AllIn(servers.value, db.servers.Keys);
      if !found {
        return false;
      }
      found := AllIn(credentials.value, db.clientCredentials.Keys);
      if !found {
        return false;
      }
      var tx := db.links;
      ElementsWhole(servers.value);
      for i := 0 to |servers.value|
        invariant db == old(db)
        invariant BulkLinks(db.links, tx, Elements(servers.value[..i]), Elements(credentialIDs), op.value)
      {
        var next := LinkServer(tx, servers.value[i], credentials.value, op.value);
        LinkNext(db.links, tx, next, Elements(servers.value[..i]), servers.value[i], Elements(credentialIDs), op.value);
        ElementsSnoc(servers.value, i);
        tx := next;
      }
      assert forall s :: s in serverIDs <==> s in Elements(serverIDs);
      db := db.(links := tx);
      return true;
    }

    method UpdateClientCredential(id: int, u: Update, names: seq<string>, digest: string) returns (ok: bool)
      modifies this
      ensures UpdateCredential(old(db), id, u, names, digest) == if ok then Some(db) else None
      ensures !ok ==> db == old(db)
      ensures ok ==> UpdatedRow(old(db).clientCredentials[id], u, digest, db.clientCredentials[id])
      ensures ok <==> && id in old(db).clientCredentials && ListedOnce(old(db).servers, names)
                      && (u.auth == "public_key" || (u.auth == "password" && |u.password| <= 72))
    {
      if id !in db.clientCredentials {
        return false;
      }
      var row := AuthColumns(u, Some(db.clientCredentials[id]), digest);
      if row.None? {
        return false;
      }
      var links := set p | p in db.links && p.1 != id;
      for i := 0 to |names|
        invariant db == old(db)
        invariant links == Relink(db, id, names[..i])
        invariant ListedOnce(db.servers, names[..i])
      {
        var pairs := set s | s in db.servers && db.servers[s].name == names[i] :: (s, id);
        RelinkNext(db, id, names, i);
        if pairs * links != {} {
          return false;
        }
        links := links + pairs;
      }
      assert names[..|names|] == names;
      db := db.(clientCredentials := db.clientCredentials[id := row.value], links := links);
      return true;
    }

    /** The server's row is inserted or updated as Upsert says. */
    method UpsertServer(q: RouteRequest) returns (ok: bool)
      modifies this
      ensures ok <==> Upsert(old(db), q).Ok?
      ensures db == if ok then Upsert(old(db), q).value else old(db)
    {
      if exists id | id in db.servers :: id != q.id && db.servers[id].name == q.name {
        return false;
      }
      if q.id == 0 {
        db := db.(servers := db.servers[db.nextServer := RowOf(q, true, NoHash)], nextServer := db.nextServer + 1);
        return true;
      }
      if q.id !in db.servers {
        return false;
      }
      db := db.(servers := db.servers[q.id := RowOf(q, db.servers[q.id].enabled, db.servers[q.id].hash)]);
      return true;
    }

    method SetServerEnabled(name: string, enabled: bool) returns (ok: bool)
      requires UniqueNames(db.servers)
      modifies this
      ensures ok <==> exists id :: Named(old(db).servers, name, id)
      ensures !ok ==> db == old(db)
      ensures forall id | Named(old(db).servers, name, id) ::
                db == old(db).(servers := old(db).servers[id := old(db).servers[id].(enabled := enabled)])
    {
      var row := FindNamed(db.servers, name);
      if row.None? {
        return false;
      }
      db := SetEnabled(db, row.value, enabled);
      return true;
    }

    method DeleteNamed(name: string)
      requires UniqueNames(db.servers)
      modifies this
      ensures (forall id :: !Named(old(db).servers, name, id)) ==> db == old(db)
      ensures forall id | Named(old(db).servers, name, id) :: db == DeleteServer(old(db), id)
    {
      var row := FindNamed(db.servers, name);
      if row.Some? {
        db := DeleteServer(db, row.value);
      }
    }

    // The suffix loop: the first candidate name that is free.
    method FreeCandidate(hostname: string) returns (name: Option<string>)
      ensures name == LeastFree(db.servers, hostname, 1)
    {
      var suffix := 1;
      name := Some(hostname);
      while true
        invariant 1 <= suffix <= MAX_SUFFIX + 1
        invariant LeastFree(db.servers, hostname, suffix) == LeastFree(db.servers, hostname, 1)
        decreases MAX_SUFFIX + 1 - suffix
      {
        if suffix > MAX_SUFFIX {
          return None;
        }
        var candidate := if suffix > 1 then hostname + "-" + PrintNat(suffix) else hostname;
        if FreeName(db.servers, candidate) {
          return Some(candidate);
        }
        suffix := suffix + 1;
      }
    }

    /** authenticateAgent: a route that holds the hash answers; otherwise the token
        may claim a new route, and only when `register` is set. */
    method AuthenticateAgent(hash: Hash, hostname: string, register: bool) returns (r: Result<int>)
      modifies this
      ensures Authenticated(old(db), db, hash, hostname, register, r)
    {
      if exists id | id in db.servers :: db.servers[id].hash == hash && db.servers[id].kind == AgentServer {
        var id :| id in db.servers && db.servers[id].hash == hash && db.servers[id].kind == AgentServer;
        assert IsDeviceRow(db, hash, id);
        if !db.servers[id].enabled {
          return Err("identity");
        }
        if hash in db.enrollments && (!db.enrollments[hash].enabled || db.enrollments[hash].hostname != hostname) {
          return Err("identity");
        }
        return Ok(id);
      }
      if !ValidHostname(hostname) {
        return Err("identity");
      }
      if hash !in db.enrollments || !db.enrollments[hash].enabled || db.enrollments[hash].used {
        return Err("identity");
      }
      if !register {
        return Ok(0);
      }
      var e := db.enrollments[hash].(used := true);
      var tx := db.(enrollments := db.enrollments[hash := e]);
      if e.credentials == {} {
        return Err("identity");
      }
      var name := FreeCandidate(hostname);
      if name.None? {
        return Err("hostname collision limit exceeded");
      }
      var id := tx.nextServer;
      tx := InsertServer(tx, AgentRow(name.value, hostname, hash));
      tx := tx.(links := tx.links + set c | c in e.credentials :: (id, c));
      tx := tx.(enrollments := tx.enrollments[hash := e.(server := Some(id), hostname := hostname)]);
      assert tx.enrollments == db.enrollments[hash := e.(server := Some(id), hostname := hostname)];
      assert ClaimEnrollment(db, hash, hostname).value.db == tx;
      db := tx;
      return Ok(id);
    }

    /** resolveAgent: the hash of the stored shared key registers a host name, any
        other hash is a device's or an enrollment token's. */
    method ResolveAgent(hash: Hash, hostname: string, register: bool) returns (r: Result<(int, Hash)>)
      modifies this
      ensures AgentResolved(old(db), db, hash, hostname, register, r)
    {
      if !(db.settings.Some? && db.settings.value.hash == hash) {
        var id := AuthenticateAgent(hash, hostname, register);
        return if id.Ok? then Ok((id.value, hash)) else Err(id.error);
      }
      if !db.settings.value.enabled || !ValidHostname(hostname) {
        return Err("identity");
      }
      var peerHash := PeerHash(hash, hostname);
      if !register {
        return Ok((0, peerHash));
      }
      var f := Fold(hostname);
      if f in db.hosts {
        if db.hosts[f].None? {
          return Err("identity");
        }
        var id := db.hosts[f].value;
        if !(id in db.servers && db.servers[id].enabled && db.servers[id].kind == AgentServer && Fold(db.servers[id].name) == f) {
          return Err("identity");
        }
        db := db.(servers := db.servers[id := db.servers[id].(hash := peerHash)]);
        return Ok((id, peerHash));
      }
      if !FreeName(db.servers, hostname) {
        return Err("identity");
      }
      var id := db.nextServer;
      var tx := InsertServer(db, AgentRow(hostname, hostname, peerHash));
      tx := tx.(hosts := tx.hosts[f := Some(id)]);
      db := tx;
      return Ok((id, peerHash));
    }
  }

  method AreSsh(servers: map<int, Server>, ids: seq<int>) returns (found: bool)
    ensures found <==> AllSsh(servers, ids)
  {
    for i := 0 to |ids|
      invariant forall k | 0 <= k < i :: ids[k] in servers && servers[ids[k]].kind == SshServer
    {
      var id := ids[i];
      if id !in servers || servers[id].kind != SshServer {
        assert id in ids;
        return false;
      }
    }
    return true;
  }

  lemma SameSsh(servers: map<int, Server>, a: seq<int>, b: seq<int>)
    requires Elements(a) == Elements(b)
    ensures AllSsh(servers, a) <==> AllSsh(servers, b)
  {
    assert forall id :: id in a <==> id in Elements(a);
    assert forall id :: id in b <==> id in Elements(b);
  }

  method AllIn(ids: seq<int>, keys: set<int>) returns (found: bool)
    ensures found <==> Elements(ids) <= keys
  {
    for i := 0 to |ids|
      invariant forall k | 0 <= k < i :: ids[k] in keys
    {
      if ids[i] !in keys {
        assert ids[i] in Elements(ids);
        return false;
      }
    }
    return true;
  }

  lemma RelinkNext(db: Db, id: int, names: seq<string>, i: nat)
    requires i < |names| && ListedOnce(db.servers, names[..i])
    ensures var pairs := set s | s in db.servers && db.servers[s].name == names[i] :: (s, id);
            && Relink(db, id, names[..i + 1]) == Relink(db, id, names[..i]) + pairs
            && (pairs * Relink(db, id, names[..i]) == {} <==> ListedOnce(db.servers, names[..i + 1]))
            && (pairs * Relink(db, id, names[..i]) != {} ==> !ListedOnce(db.servers, names))
  {
    var pairs := set s | s in db.servers && db.servers[s].name == names[i] :: (s, id);
    var part := names[..i + 1];
    assert forall k | 0 <= k <= i :: part[k] == names[k];
    if p :| p in pairs && p in Relink(db, id, names[..i]) {
      var k :| 0 <= k < i && names[k] == db.servers[p.0].name;
      assert Named(db.servers, names[i], p.0) && part[k] == part[i] == names[i];
      assert Known(db.servers, part[k]);
      assert !ListedOnce(db.servers, part) && !ListedOnce(db.servers, names);
      assert p in pairs * Relink(db, id, names[..i]);
    } else {
      forall k, l | 0 <= k < l < |part| && part[k] == part[l] ensures !Known(db.servers, part[k]) {
        if l < i {
          assert names[..i][k] == names[..i][l];
        } else {
          assert part[k] in names[..i];
          forall s ensures !Named(db.servers, part[k], s) {
            assert Named(db.servers, part[k], s) ==> (s, id) in pairs && (s, id) in Relink(db, id, names[..i]);
          }
        }
      }
    }
  }
}
