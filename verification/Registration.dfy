/** The transactions that create, bind and unbind agent routes (self_registration.go,
    enrollment.go, agent.go), each as a function from one database to the next. */
module Registration {
  import opened Wrappers
  import opened Decimal
  import opened Tables
  import opened EnrollmentTokens

  datatype Bound = Bound(db: Db, id: int)

  // SELECT count(*) FROM servers WHERE proxy_user = ? COLLATE NOCASE finds nothing.
  predicate FreeName(servers: map<int, Server>, name: string) {
    forall id | id in servers :: Fold(servers[id].name) != Fold(name)
  }

  function AgentRow(name: string, host: string, hash: Hash): Server {
    Server(name, host, 0, Fixed, 1, 65535, true, None, AgentServer, hash)
  }

  function InsertServer(db: Db, row: Server): Db {
    db.(servers := db.servers[db.nextServer := row], nextServer := db.nextServer + 1)
  }

  // ---- shared registration ----

  function PeerHash(key: Hash, hostname: string): Hash {
    OfHost(key, Fold(hostname))
  }

  // The transaction of resolveAgent for the shared key.
  function RegisterShared(db: Db, key: Hash, hostname: string): Result<Bound> {
    var f := Fold(hostname);
    if !(db.settings.Some? && db.settings.value.enabled && db.settings.value.hash == key) then Err("identity")
    else if f in db.hosts then
      match db.hosts[f]
      case None => Err("identity")
      case Some(id) =>
        if id in db.servers && db.servers[id].enabled && db.servers[id].kind == AgentServer && Fold(db.servers[id].name) == f
        then Ok(Bound(db.(servers := db.servers[id := db.servers[id].(hash := PeerHash(key, hostname))]), id))
        else Err("identity")
    else if !FreeName(db.servers, hostname) then Err("identity")
    else
      var id := db.nextServer;
      var db' := InsertServer(db, AgentRow(hostname, hostname, PeerHash(key, hostname)));
      Ok(Bound(db'.(hosts := db.hosts[f := Some(id)]), id))
  }

  // A name is free when no route has it in any spelling.
  lemma FreeNameMeans(servers: map<int, Server>, name: string)
    ensures FreeName(servers, name) <==> forall id | id in servers :: !SameLetters(servers[id].name, name)
  {
    forall id | id in servers ensures Fold(servers[id].name) == Fold(name) <==> SameLetters(servers[id].name, name) {
      FoldMeans(servers[id].name, name);
    }
  }

  // Derived hashes agree exactly for one key and one name, however it is written.
  lemma PeerHashMeans(k: Hash, a: string, l: Hash, b: string)
    ensures PeerHash(k, a) == PeerHash(l, b) <==> k == l && SameLetters(a, b)
    ensures PeerHash(k, a) != k && PeerHash(k, a).OfHost?
  {
    FoldMeans(a, b);
  }

  /** A registration succeeds only under the stored, enabled key. A new host name gets
      a new enabled route of that name, free in every spelling, and is linked to it; a
      known one keeps its route, which must be an enabled agent of that name, and only
      the hash is renewed. Nothing else changes. */
  lemma SharedRegistrationIs(db: Db, key: Hash, hostname: string)
    requires RegisterShared(db, key, hostname).Ok?
    ensures var r, f, hash := RegisterShared(db, key, hostname).value, Fold(hostname), PeerHash(key, hostname);
            && db.settings.Some? && db.settings.value.enabled && db.settings.value.hash == key
            && r.db == db.(servers := r.db.servers, nextServer := r.db.nextServer, hosts := r.db.hosts)
            && r.db.hosts == db.hosts[f := Some(r.id)]
            && if f in db.hosts then
                 && db.hosts[f] == Some(r.id) && r.id in db.servers && r.db.nextServer == db.nextServer
                 && db.servers[r.id].enabled && db.servers[r.id].kind == AgentServer
                 && SameLetters(db.servers[r.id].name, hostname)
                 && r.db.servers == db.servers[r.id := db.servers[r.id].(hash := hash)]
               else
                 && r.id == db.nextServer && r.db.nextServer == db.nextServer + 1
                 && (forall id | id in db.servers :: !SameLetters(db.servers[id].name, hostname))
                 && r.db.servers == db.servers[r.id := Server(hostname, hostname, 0, Fixed, 1, 65535, true, None, AgentServer, hash)]
  {
    FreeNameMeans(db.servers, hostname);
    var f, r := Fold(hostname), RegisterShared(db, key, hostname).value;
    if f in db.hosts {
      FoldMeans(db.servers[r.id].name, hostname);
      assert db.hosts[f := Some(r.id)] == db.hosts;
    }
  }

  // Rows of host names refer to distinct existing routes.
  ghost predicate HostLinks(db: Db) {
    && (forall f, g | f in db.hosts && g in db.hosts && db.hosts[f].Some? && db.hosts[f] == db.hosts[g] :: f == g)
    && (forall f | f in db.hosts && db.hosts[f].Some? :: db.hosts[f].value in db.servers)
    && db.nextServer !in db.servers
  }

  /** A second registration under the same key reaches the first one's route, and
      changes nothing, when its host name differs in letter case only; any other host
      name that registers gets another route and another hash. */
  lemma SharedNamesIdentifyRoutes(db: Db, key: Hash, a: string, b: string)
    requires HostLinks(db) && RegisterShared(db, key, a).Ok?
    ensures var first := RegisterShared(db, key, a).value;
            var second := RegisterShared(first.db, key, b);
            && (SameLetters(a, b) ==> second == Ok(first) && PeerHash(key, a) == PeerHash(key, b))
            && (!SameLetters(a, b) && second.Ok? ==>
                  && second.value.id != first.id
                  && second.value.db.servers[second.value.id].hash != second.value.db.servers[first.id].hash)
  {
    var first := RegisterShared(db, key, a).value;
    var second := RegisterShared(first.db, key, b);
    FoldMeans(a, b);
    PeerHashMeans(key, a, key, b);
    SharedRegistrationIs(db, key, a);
    if SameLetters(a, b) {
      FoldMeans(first.db.servers[first.id].name, b);
      FoldMeans(a, a);
      assert first.db.servers[first.id].hash == PeerHash(key, b);
      assert second.value.db.servers == first.db.servers;
    } else if second.Ok? {
      SharedRegistrationIs(first.db, key, b);
      if Fold(b) in db.hosts {
        assert Fold(a) in db.hosts ==> db.hosts[Fold(a)] == Some(first.id);
      }
    }
  }

  // ---- enrollment tokens ----

  const MAX_SUFFIX := 1000

  function Candidate(hostname: string, k: nat): string {
    if k <= 1 then hostname else hostname + "-" + PrintNat(k)
  }

  function LeastFree(servers: map<int, Server>, hostname: string, k: nat): Option<string>
    decreases MAX_SUFFIX + 1 - k
  {
    if k > MAX_SUFFIX then None
    else if FreeName(servers, Candidate(hostname, k)) then Some(Candidate(hostname, k))
    else LeastFree(servers, hostname, k + 1)
  }

  // Candidate n has this name, which is free, and none from k to n is free.
  ghost predicate FirstFree(servers: map<int, Server>, hostname: string, k: nat, n: nat, name: string) {
    && k <= n <= 1000 && name == Candidate(hostname, n) && FreeName(servers, name)
    && forall j | k <= j < n :: !FreeName(servers, Candidate(hostname, j))
  }

  // r is the first free candidate from k on, or no candidate is free.
  ghost predicate SearchResult(servers: map<int, Server>, hostname: string, k: nat, r: Option<string>) {
    match r
    case None => forall j | k <= j <= 1000 :: !FreeName(servers, Candidate(hostname, j))
    case Some(name) => exists n :: FirstFree(servers, hostname, k, n, name)
  }

  lemma SearchStops(servers: map<int, Server>, hostname: string, k: nat)
    requires k <= MAX_SUFFIX && FreeName(servers, Candidate(hostname, k))
    ensures SearchResult(servers, hostname, k, Some(Candidate(hostname, k)))
  {
    assert FirstFree(servers, hostname, k, k, Candidate(hostname, k));
  }

  lemma SearchGoesOn(servers: map<int, Server>, hostname: string, k: nat, r: Option<string>)
    requires !FreeName(servers, Candidate(hostname, k)) && SearchResult(servers, hostname, k + 1, r)
    ensures SearchResult(servers, hostname, k, r)
  {
    if r.Some? {
      var n :| FirstFree(servers, hostname, k + 1, n, r.value);
      assert FirstFree(servers, hostname, k, n, r.value);
    }
  }

  // The suffix search finds the first free candidate, or none of them is free.
  lemma {:induction false} LeastFreeIsLeast(servers: map<int, Server>, hostname: string, k: nat)
    ensures SearchResult(servers, hostname, k, LeastFree(servers, hostname, k))
    decreases MAX_SUFFIX + 1 - k
  {
    if k > MAX_SUFFIX {
    } else if FreeName(servers, Candidate(hostname, k)) {
      SearchStops(servers, hostname, k);
    } else {
      LeastFreeIsLeast(servers, hostname, k + 1);
      SearchGoesOn(servers, hostname, k, LeastFree(servers, hostname, k + 1));
    }
  }

  // The claim transaction of authenticateAgent.
  function ClaimEnrollment(db: Db, hash: Hash, hostname: string): Result<Bound> {
    if hash !in db.enrollments || !db.enrollments[hash].enabled || db.enrollments[hash].used then Err("identity")
    else
      var e := db.enrollments[hash];
      if e.credentials == {} then Err("identity")
      else
        match LeastFree(db.servers, hostname, 1)
        case None => Err("hostname collision limit exceeded")
        case Some(name) =>
          var id := db.nextServer;
          var db' := InsertServer(db, AgentRow(name, hostname, hash));
          Ok(Bound(db'.(links := db.links + (set c | c in e.credentials :: (id, c)),
                        enrollments := db.enrollments[hash := e.(used := true, hostname := hostname, server := Some(id))]), id))
  }

  /** A claim either fails and changes nothing or creates one route under a name
      free of collisions, binds the token to it and to the host name at once, and
      grants exactly the token's credentials; a second claim of the token fails. */
  lemma ClaimIsAtomicAndOnce(db: Db, hash: Hash, hostname: string, again: string)
    requires ClaimEnrollment(db, hash, hostname).Ok?
    requires forall id | id in db.servers :: id < db.nextServer
    requires forall p | p in db.links :: p.0 in db.servers
    ensures var r := ClaimEnrollment(db, hash, hostname).value;
            && r.id == db.nextServer && r.id !in db.servers && r.db.nextServer == r.id + 1
            && r.db.servers.Keys == db.servers.Keys + {r.id}
            && (exists n, name :: FirstFree(db.servers, hostname, 1, n, name)
                  && r.db.servers[r.id] == Server(name, hostname, 0, Fixed, 1, 65535, true, None, AgentServer, hash))
            && (forall id | id in db.servers :: r.db.servers[id] == db.servers[id])
            && FreeName(db.servers, r.db.servers[r.id].name)
            && (forall c :: (r.id, c) in r.db.links <==> c in db.enrollments[hash].credentials)
            && (forall p: (int, int) | p.0 != r.id :: p in r.db.links <==> p in db.links)
            && r.db.enrollments[hash] == db.enrollments[hash].(used := true, hostname := hostname, server := Some(r.id))
            && (forall h | h != hash :: (h in r.db.enrollments <==> h in db.enrollments))
            && (forall h | h != hash && h in db.enrollments :: r.db.enrollments[h] == db.enrollments[h])
            && ClaimEnrollment(r.db, hash, again).Err?
  {
    LeastFreeIsLeast(db.servers, hostname, 1);
  }

  // ---- the other statements on agent identity ----

  // SELECT id, enabled FROM servers WHERE agent_token_hash = ? AND connection_type = 'agent'
  predicate IsDeviceRow(db: Db, hash: Hash, id: int) {
    id in db.servers && db.servers[id].hash == hash && db.servers[id].kind == AgentServer
  }

  // The enrollment check for a server row found by its hash.
  predicate EnrollmentAgrees(db: Db, hash: Hash, hostname: string) {
    hash in db.enrollments ==> db.enrollments[hash].enabled && db.enrollments[hash].hostname == hostname
  }

  predicate Claimable(db: Db, hash: Hash) {
    hash in db.enrollments && db.enrollments[hash].enabled && !db.enrollments[hash].used
  }

  function SetHash(db: Db, id: int, hash: Hash): Db {
    if id in db.servers then db.(servers := db.servers[id := db.servers[id].(hash := hash)]) else db
  }

  datatype Revoked = Revoked(db: Db, cleared: Option<int>)

  // handleRevokeEnrollment's transaction.
  function Revoke(db: Db, hash: Hash): Result<Revoked> {
    if hash !in db.enrollments then Err("no such token")
    else
      var e := db.enrollments[hash];
      var db' := db.(enrollments := db.enrollments[hash := e.(enabled := false)]);
      if e.server.Some? && e.server.value in db.servers && db.servers[e.server.value].hash == hash
      then Ok(Revoked(SetHash(db', e.server.value, NoHash), e.server))
      else Ok(Revoked(db', None))
  }

  // SetServerEnabled and DeleteServer act on the row with this name, if any.
  function SetEnabled(db: Db, id: int, enabled: bool): Db
    requires id in db.servers
  {
    db.(servers := db.servers[id := db.servers[id].(enabled := enabled)])
  }

  // ON DELETE CASCADE on links, ON DELETE SET NULL on enrollments and hosts.
  function DeleteServer(db: Db, id: int): Db {
    db.(servers := db.servers - {id},
        links := (set p | p in db.links && p.0 != id),
        enrollments := (map h | h in db.enrollments ::
          if db.enrollments[h].server == Some(id) then db.enrollments[h].(server := None) else db.enrollments[h]),
        hosts := (map f | f in db.hosts :: if db.hosts[f] == Some(id) then None else db.hosts[f]))
  }

  // What the handlers for credentials change: the credentials that exist, the
  // credential of each route, and the links. A deleted credential leaves its tokens.
  datatype CredentialChange = CredentialChange(
    clients: map<int, ClientCredential>, servers: set<int>, chosen: map<int, Option<int>>, links: set<(int, int)>)

  function ChangeCredentials(db: Db, c: CredentialChange): Db {
    db.(clientCredentials := c.clients, serverCredentials := c.servers, links := c.links,
        servers := (map id | id in db.servers ::
          if id in c.chosen then db.servers[id].(credential := c.chosen[id]) else db.servers[id]),
        enrollments := (map h | h in db.enrollments ::
          db.enrollments[h].(credentials := db.enrollments[h].credentials * c.clients.Keys)))
  }

  // ---- shared registration settings ----

  function SaveSettings(db: Db, address: string, hash: Hash, token: Cell): Db {
    db.(settings := Some(Settings(true, address, hash, token)))
  }

  function SaveAddress(db: Db, address: string, token: Cell): Db {
    match db.settings
    case None => db.(settings := Some(Settings(false, address, NoHash, token)))
    case Some(s) => db.(settings := Some(s.(address := address, token := token)))
  }

  function DisableSettings(db: Db): Db {
    match db.settings
    case None => db
    case Some(s) => db.(settings := Some(s.(enabled := false)))
  }

  // SELECT server_id FROM agent_registration_hosts WHERE server_id IS NOT NULL
  function LinkedServers(db: Db): set<int> {
    set f | f in db.hosts && db.hosts[f].Some? :: db.hosts[f].value
  }
}
