/** What every step of agent identity keeps, and what follows for every run. */
module IdentitySafety {
  import opened Wrappers
  import opened Tables
  import opened EnrollmentTokens
  import opened Registration
  import opened Routing
  import opened AgentIdentity

  // ---- the database and its history ----

  predicate Issued(h: Hash, secrets: set<string>) {
    h.OfSecret? && h.secret in secrets
  }

  // Where a route's hash may come from.
  predicate HashOk(h: Hash, id: int, past: History) {
    match h
    case NoHash => true
    case OfSecret(d) => d in past.device
    case OfHost(key, f) => Issued(key, past.shared.Keys) && f in past.firsts && past.firsts[f] == id
  }

  ghost predicate RowsOk(db: Db, past: History) {
    && db.nextServer > 0
    && (forall id | id in db.servers :: 0 < id < db.nextServer && HashOk(db.servers[id].hash, id, past))
    && (forall i, j | i in db.servers && j in db.servers && db.servers[i].hash.OfSecret? && db.servers[i].hash == db.servers[j].hash :: i == j)
    && (forall id | id in db.servers && db.servers[id].hash in db.enrollments ::
          db.servers[id].hash in past.claims && past.claims[db.servers[id].hash] == [id])
  }

  // Used, host name and route of an enrollment token stand or fall together.
  ghost predicate TokenOk(db: Db, past: History, h: Hash)
    requires h in db.enrollments
  {
    var e := db.enrollments[h];
    && Issued(h, past.device)
    && (e.used <==> h in past.claims)
    && (!e.used ==> e.hostname == "" && e.server == None)
    && (e.used ==>
          && ValidHostname(e.hostname)
          && |past.claims[h]| == 1 && past.claims[h][0] < db.nextServer
          && e.server == if past.claims[h][0] in db.servers then Some(past.claims[h][0]) else None)
  }

  ghost predicate TokensOk(db: Db, past: History) {
    && (forall h | h in db.enrollments :: TokenOk(db, past, h))
    && (forall h | h in past.claims :: h in db.enrollments)
  }

  ghost predicate HostsOk(db: Db, past: History) {
    && db.hosts.Keys == past.firsts.Keys
    && (forall f | f in past.firsts ::
          && past.firsts[f] < db.nextServer
          && db.hosts[f] == if past.firsts[f] in db.servers then Some(past.firsts[f]) else None)
    && (forall f, g | f in past.firsts && g in past.firsts && past.firsts[f] == past.firsts[g] :: f == g)
  }

  ghost predicate DbOk(db: Db, past: History) {
    && RowsOk(db, past) && TokensOk(db, past) && HostsOk(db, past)
    && (db.settings.Some? ==> db.settings.value.hash == NoHash || Issued(db.settings.value.hash, past.shared.Keys))
  }

  // ---- connections ----

  // A route and hash obtained for a presented token.
  ghost predicate GrantOk(db: Db, past: History, presented: Hash, id: int, hash: Hash) {
    && id < db.nextServer
    && (hash == presented ==>
          Issued(presented, past.device) && (presented in db.enrollments ==> presented in past.claims && past.claims[presented] == [id]))
    && (hash != presented ==>
          hash.OfHost? && hash.key == presented && Issued(presented, past.shared.Keys)
          && hash.host in past.firsts && past.firsts[hash.host] == id)
  }

  ghost predicate PeersOk(s: System) {
    && (forall id | id in s.peers ::
          && s.peers[id].presented.OfSecret?
          && s.peers[id].conn < s.nextConn && s.peers[id].since < s.clock
          && GrantOk(s.db, s.past, s.peers[id].presented, id, s.peers[id].hash))
    && (forall i, j | i in s.peers && j in s.peers && s.peers[i].conn == s.peers[j].conn :: i == j)
  }

  // Registered peers were admitted under the key that is stored and enabled now,
  // except those that a reset did not read.
  ghost predicate RegisteredPeersCurrent(db: Db, peers: map<int, Peer>, missed: set<nat>) {
    forall id | Stale(db, peers, id) :: peers[id].conn in missed
  }

  ghost predicate StageOk(db: Db, past: History, a: Admission) {
    && a.presented.OfSecret?
    && (match a.stage
        case SharedKey => Current(db, a.presented) && ValidHostname(a.hostname)
        case Matched(id) => GrantOk(db, past, a.presented, id, a.presented)
        case Claiming => a.presented in db.enrollments && ValidHostname(a.hostname)
        case Resolved(id, hash) =>
          && GrantOk(db, past, a.presented, id, hash)
          && (hash == a.presented && hash in db.enrollments ==> db.enrollments[hash].hostname == a.hostname)
          && (hash != a.presented ==> Current(db, a.presented) && hash == PeerHash(a.presented, a.hostname))
        case _ => true)
  }

  ghost predicate MutexOk(s: System) {
    s.mutex.Admitting? ==>
      && s.mutex.a.conn < s.nextConn
      && s.mutex.a.since < s.clock
      && StageOk(s.db, s.past, s.mutex.a)
      && (forall id | id in s.peers :: s.peers[id].conn != s.mutex.a.conn)
  }

  // Once a handler has disconnected a route, its connections are newer than its write.
  predicate Fresh(s: System, id: int, wrote: nat) {
    && (id in s.peers ==> s.peers[id].since > wrote)
    && (s.mutex.Admitting? ==> s.mutex.a.since > wrote)
  }

  ghost predicate HandlersOk(s: System) {
    forall h | 0 <= h < |s.handlers| ::
      && (s.handlers[h].Toggled? || s.handlers[h].Disconnecting? || s.handlers[h].Returned? ==> s.handlers[h].wrote < s.clock)
      && (s.handlers[h].Returned? ==> Fresh(s, s.handlers[h].id, s.handlers[h].wrote))
  }

  ghost predicate Inv(s: System) {
    && DbOk(s.db, s.past)
    && PeersOk(s)
    && MutexOk(s)
    && HandlersOk(s)
    && (!s.mutex.Resetting? ==> RegisteredPeersCurrent(s.db, s.peers, s.past.missed))
  }

  // ---- what database changes preserve for connections ----

  ghost predicate Extends(db: Db, past: History, db': Db, past': History) {
    && db.nextServer <= db'.nextServer
    && past.device <= past'.device && past.shared.Keys <= past'.shared.Keys && past.missed <= past'.missed
    && (forall h | h in past.claims :: h in past'.claims && past'.claims[h] == past.claims[h])
    && (forall f | f in past.firsts :: f in past'.firsts && past'.firsts[f] == past.firsts[f])
    && (forall h | h in db.enrollments :: h in db'.enrollments
          && (db.enrollments[h].used ==> db'.enrollments[h].used && db'.enrollments[h].hostname == db.enrollments[h].hostname))
    && (forall h | h in db'.enrollments && h !in db.enrollments :: !Issued(h, past.device))
    && (forall id | id in LinkedServers(db') && id < db.nextServer :: id in LinkedServers(db))
    && (forall id | id < db.nextServer && id in db'.servers :: id in db.servers)
  }

  lemma GrantExtends(db: Db, past: History, db': Db, past': History, presented: Hash, id: int, hash: Hash)
    requires Extends(db, past, db', past') && GrantOk(db, past, presented, id, hash)
    ensures GrantOk(db', past', presented, id, hash)
  {
  }

  // A step that changes the tables, but neither settings, peers nor mutex.
  lemma TablesChange(s: System, db': Db, past': History)
    requires Inv(s) && DbOk(db', past') && Extends(s.db, s.past, db', past') && db'.settings == s.db.settings
    ensures Inv(s.(db := db', past := past'))
  {
    var s' := s.(db := db', past := past');
    forall id | id in s.peers ensures GrantOk(db', past', s.peers[id].presented, id, s.peers[id].hash) {
      GrantExtends(s.db, s.past, db', past', s.peers[id].presented, id, s.peers[id].hash);
    }
    if s.mutex.Admitting? {
      StageExtends(s.db, s.past, db', past', s.mutex.a);
    }
  }

  lemma StageExtends(db: Db, past: History, db': Db, past': History, a: Admission)
    requires Extends(db, past, db', past') && db'.settings == db.settings
    requires StageOk(db, past, a) && DbOk(db, past) && DbOk(db', past')
    ensures StageOk(db', past', a)
  {
    if a.stage.Matched? {
      GrantExtends(db, past, db', past', a.presented, a.stage.id, a.presented);
    } else if a.stage.Resolved? {
      GrantExtends(db, past, db', past', a.presented, a.stage.id, a.stage.hash);
    }
  }

  // ---- each database change keeps the tables sound ----

  lemma SetHashKeepsRows(db: Db, past: History, id: int, hash: Hash)
    requires RowsOk(db, past) && HashOk(hash, id, past) && hash !in db.enrollments
    requires forall j | j in db.servers && j != id :: hash.OfSecret? ==> db.servers[j].hash != hash
    ensures RowsOk(SetHash(db, id, hash), past)
  {
  }

  lemma SetHashKeeps(db: Db, past: History, id: int, hash: Hash)
    requires DbOk(db, past) && HashOk(hash, id, past) && hash !in db.enrollments
    requires forall j | j in db.servers && j != id :: hash.OfSecret? ==> db.servers[j].hash != hash
    ensures DbOk(SetHash(db, id, hash), past) && Extends(db, past, SetHash(db, id, hash), past)
  {
    SetHashKeepsRows(db, past, id, hash);
    var db' := SetHash(db, id, hash);
    forall h | h in db'.enrollments ensures TokenOk(db', past, h) {
      assert TokenOk(db, past, h);
    }
  }

  // A new row takes the next key; `firsts` may record it as the route of a new host name.
  lemma InsertRows(db: Db, past: History, row: Server, past': History)
    requires DbOk(db, past) && HashOk(row.hash, db.nextServer, past')
    requires row.hash.OfSecret? ==> forall j | j in db.servers :: db.servers[j].hash != row.hash
    requires row.hash in db.enrollments ==> row.hash in past'.claims && past'.claims[row.hash] == [db.nextServer]
    requires past'.device == past.device && past'.shared == past.shared
    requires forall f | f in past.firsts :: f in past'.firsts && past'.firsts[f] == past.firsts[f]
    requires forall h | h in past.claims :: h in past'.claims && past'.claims[h] == past.claims[h]
    ensures RowsOk(InsertServer(db, row), past')
  {
  }

  // Tokens do not notice a new row.
  lemma InsertTokens(db: Db, past: History, row: Server, db': Db, past': History)
    requires DbOk(db, past) && past'.device == past.device && past'.claims == past.claims
    requires db'.servers == InsertServer(db, row).servers && db'.nextServer == db.nextServer + 1
    requires db'.enrollments == db.enrollments
    ensures TokensOk(db', past')
  {
    forall h | h in db'.enrollments ensures TokenOk(db', past', h) {
      assert TokenOk(db, past, h);
    }
  }

  lemma RegisterNewShape(db: Db, key: Hash, hostname: string)
    requires RegisterShared(db, key, hostname).Ok? && Fold(hostname) !in db.hosts
    ensures var r := RegisterShared(db, key, hostname).value;
            var row := AgentRow(hostname, hostname, PeerHash(key, hostname));
            r.id == db.nextServer && r.db == InsertServer(db, row).(hosts := db.hosts[Fold(hostname) := Some(db.nextServer)])
  {
  }

  // A new host name takes the next key as its first route.
  lemma InsertHost(db: Db, past: History, row: Server, f: string)
    requires DbOk(db, past) && f !in db.hosts
    ensures var db' := InsertServer(db, row).(hosts := db.hosts[f := Some(db.nextServer)]);
            && HostsOk(db', past.(firsts := past.firsts[f := db.nextServer]))
            && forall id | id in LinkedServers(db') && id < db.nextServer :: id in LinkedServers(db)
  {
    var db' := InsertServer(db, row).(hosts := db.hosts[f := Some(db.nextServer)]);
    forall id | id in LinkedServers(db') && id < db.nextServer ensures id in LinkedServers(db) {
      var g :| g in db'.hosts && db'.hosts[g] == Some(id);
      assert g in db.hosts && db.hosts[g] == Some(id);
    }
  }

  lemma RegisterNewKeeps(db: Db, past: History, key: Hash, hostname: string)
    requires DbOk(db, past) && Current(db, key) && key.OfSecret? && RegisterShared(db, key, hostname).Ok? && Fold(hostname) !in db.hosts
    ensures var r := RegisterShared(db, key, hostname).value;
            var past' := past.(firsts := past.firsts[Fold(hostname) := r.id]);
            DbOk(r.db, past') && Extends(db, past, r.db, past')
  {
    var f, row := Fold(hostname), AgentRow(hostname, hostname, PeerHash(key, hostname));
    var past' := past.(firsts := past.firsts[f := db.nextServer]);
    RegisterNewShape(db, key, hostname);
    InsertRows(db, past, row, past');
    InsertTokens(db, past, row, RegisterShared(db, key, hostname).value.db, past');
    InsertHost(db, past, row, f);
  }

  lemma RegisterKeeps(db: Db, past: History, key: Hash, hostname: string)
    requires DbOk(db, past) && Current(db, key) && key.OfSecret? && RegisterShared(db, key, hostname).Ok?
    ensures var r := RegisterShared(db, key, hostname).value;
            var f := Fold(hostname);
            var past' := past.(firsts := if f in past.firsts then past.firsts else past.firsts[f := r.id]);
            && DbOk(r.db, past') && Extends(db, past, r.db, past')
            && GrantOk(r.db, past', key, r.id, PeerHash(key, hostname)) && r.db.settings == db.settings
  {
    if Fold(hostname) in db.hosts {
      var id := db.hosts[Fold(hostname)].value;
      SetHashKeeps(db, past, id, PeerHash(key, hostname));
    } else {
      RegisterNewKeeps(db, past, key, hostname);
    }
  }

  lemma ClaimUnused(db: Db, past: History, h: Hash)
    requires DbOk(db, past) && Claimable(db, h)
    ensures h !in past.claims && Issued(h, past.device)
    ensures forall j | j in db.servers :: db.servers[j].hash != h
  {
    assert TokenOk(db, past, h);
  }

  lemma ClaimShape(db: Db, h: Hash, hostname: string)
    requires ClaimEnrollment(db, h, hostname).Ok?
    ensures Claimable(db, h)
    ensures var r := ClaimEnrollment(db, h, hostname).value;
            && r.id == db.nextServer && r.id in r.db.servers && r.db.servers[r.id].hash == h
            && r.db.servers == InsertServer(db, r.db.servers[r.id]).servers
            && r.db == db.(servers := r.db.servers, nextServer := db.nextServer + 1, links := r.db.links,
                           enrollments := db.enrollments[h := db.enrollments[h].(used := true, hostname := hostname, server := Some(r.id))])
  {
  }

  lemma ClaimKeeps(db: Db, past: History, h: Hash, hostname: string)
    requires DbOk(db, past) && ValidHostname(hostname) && ClaimEnrollment(db, h, hostname).Ok?
    ensures h !in past.claims
    ensures var r := ClaimEnrollment(db, h, hostname).value;
            var past' := past.(claims := past.claims[h := [r.id]]);
            && DbOk(r.db, past') && Extends(db, past, r.db, past')
            && GrantOk(r.db, past', h, r.id, h) && r.db.settings == db.settings
            && r.db.enrollments[h].hostname == hostname
  {
    ClaimUnusedBy(db, past, h, hostname);
    ClaimRows(db, past, h, hostname);
    ClaimTokens(db, past, h, hostname);
    ClaimRest(db, past, h, hostname);
  }

  lemma ClaimUnusedBy(db: Db, past: History, h: Hash, hostname: string)
    requires DbOk(db, past) && ClaimEnrollment(db, h, hostname).Ok?
    ensures h !in past.claims && Issued(h, past.device)
  {
    ClaimShape(db, h, hostname);
    ClaimUnused(db, past, h);
  }

  lemma ClaimRest(db: Db, past: History, h: Hash, hostname: string)
    requires DbOk(db, past) && h !in past.claims && Issued(h, past.device) && ClaimEnrollment(db, h, hostname).Ok?
    ensures var r := ClaimEnrollment(db, h, hostname).value;
            var past' := past.(claims := past.claims[h := [r.id]]);
            && HostsOk(r.db, past') && Extends(db, past, r.db, past')
            && GrantOk(r.db, past', h, r.id, h) && r.db.settings == db.settings
            && r.db.enrollments[h].hostname == hostname
  {
    ClaimShape(db, h, hostname);
  }

  lemma ClaimRows(db: Db, past: History, h: Hash, hostname: string)
    requires DbOk(db, past) && ClaimEnrollment(db, h, hostname).Ok?
    ensures var r := ClaimEnrollment(db, h, hostname).value;
            RowsOk(r.db, past.(claims := past.claims[h := [r.id]]))
  {
    ClaimShape(db, h, hostname);
    ClaimUnused(db, past, h);
    var r := ClaimEnrollment(db, h, hostname).value;
    InsertRows(db, past, r.db.servers[r.id], past.(claims := past.claims[h := [r.id]]));
  }

  lemma ClaimTokens(db: Db, past: History, h: Hash, hostname: string)
    requires DbOk(db, past) && ValidHostname(hostname) && ClaimEnrollment(db, h, hostname).Ok?
    ensures var r := ClaimEnrollment(db, h, hostname).value;
            TokensOk(r.db, past.(claims := past.claims[h := [r.id]]))
  {
    ClaimShape(db, h, hostname);
    ClaimUnused(db, past, h);
    var r := ClaimEnrollment(db, h, hostname).value;
    var past' := past.(claims := past.claims[h := [r.id]]);
    forall k | k in r.db.enrollments ensures TokenOk(r.db, past', k) {
      assert TokenOk(db, past, k);
    }
  }

  lemma RotateKeeps(db: Db, past: History, id: int, secret: string)
    requires DbOk(db, past) && secret !in past.device && secret !in past.shared
    ensures var past' := past.(device := past.device + {secret});
            DbOk(SetHash(db, id, OfSecret(secret)), past') && Extends(db, past, SetHash(db, id, OfSecret(secret)), past')
  {
    IssueKeeps(db, past, secret);
    forall h | h in db.enrollments ensures h != OfSecret(secret) {
      assert TokenOk(db, past, h);
    }
    SetHashKeeps(db, past.(device := past.device + {secret}), id, OfSecret(secret));
  }

  // A fresh device secret on its own changes nothing.
  lemma IssueKeeps(db: Db, past: History, secret: string)
    requires DbOk(db, past)
    ensures DbOk(db, past.(device := past.device + {secret}))
  {
    var past' := past.(device := past.device + {secret});
    forall h | h in db.enrollments ensures TokenOk(db, past', h) {
      assert TokenOk(db, past, h);
    }
  }

  lemma DisableTokenKeeps(db: Db, past: History, h: Hash)
    requires DbOk(db, past) && h in db.enrollments
    ensures var db' := db.(enrollments := db.enrollments[h := db.enrollments[h].(enabled := false)]);
            DbOk(db', past) && Extends(db, past, db', past) && NoHash !in db'.enrollments
  {
    var db' := db.(enrollments := db.enrollments[h := db.enrollments[h].(enabled := false)]);
    forall k | k in db'.enrollments ensures TokenOk(db', past, k) && k != NoHash {
      assert TokenOk(db, past, k);
    }
  }

  lemma RevokeKeeps(db: Db, past: History, h: Hash)
    requires DbOk(db, past) && Revoke(db, h).Ok?
    ensures var r := Revoke(db, h).value;
            DbOk(r.db, past) && Extends(db, past, r.db, past) && r.db.settings == db.settings
  {
    DisableTokenKeeps(db, past, h);
    var r := Revoke(db, h).value;
    if r.cleared.Some? {
      var db' := db.(enrollments := db.enrollments[h := db.enrollments[h].(enabled := false)]);
      SetHashKeeps(db', past, r.cleared.value, NoHash);
    }
  }

  // A row rewritten with the same hash, or added without one.
  lemma SameHashKeeps(db: Db, past: History, db': Db)
    requires DbOk(db, past)
    requires db' == db.(servers := db'.servers, nextServer := db'.nextServer)
    requires db.nextServer <= db'.nextServer
    requires forall id | id in db'.servers :: 0 < id < db'.nextServer
    requires forall id | id in db.servers :: id in db'.servers && db'.servers[id].hash == db.servers[id].hash
    requires forall id | id in db'.servers && id !in db.servers :: id >= db.nextServer && db'.servers[id].hash == NoHash
    ensures DbOk(db', past) && Extends(db, past, db', past)
  {
    forall h | h in db'.enrollments ensures TokenOk(db', past, h) {
      assert TokenOk(db, past, h);
    }
  }

  lemma DeleteTokens(db: Db, past: History, id: int)
    requires TokensOk(db, past) && id in db.servers
    ensures TokensOk(DeleteServer(db, id), past)
  {
    var db' := DeleteServer(db, id);
    forall h | h in db'.enrollments ensures TokenOk(db', past, h) {
      assert TokenOk(db, past, h);
    }
  }

  lemma DeleteLinks(db: Db, id: int)
    ensures forall j | j in LinkedServers(DeleteServer(db, id)) :: j in LinkedServers(db)
  {
    var db' := DeleteServer(db, id);
    forall j | j in LinkedServers(db') ensures j in LinkedServers(db) {
      var f :| f in db'.hosts && db'.hosts[f] == Some(j);
      assert db.hosts[f] == Some(j);
    }
  }

  lemma DeleteKeeps(db: Db, past: History, id: int)
    requires DbOk(db, past) && id in db.servers
    ensures DbOk(DeleteServer(db, id), past) && Extends(db, past, DeleteServer(db, id), past)
  {
    DeleteTokens(db, past, id);
    DeleteLinks(db, id);
  }

  lemma CredentialsKeepRows(db: Db, past: History, change: CredentialChange)
    requires RowsOk(db, past)
    ensures RowsOk(ChangeCredentials(db, change), past)
  {
  }

  lemma CredentialsKeepTokens(db: Db, past: History, change: CredentialChange)
    requires TokensOk(db, past)
    ensures TokensOk(ChangeCredentials(db, change), past)
  {
    var db' := ChangeCredentials(db, change);
    forall h | h in db'.enrollments ensures TokenOk(db', past, h) {
      assert TokenOk(db, past, h);
    }
  }

  lemma CredentialsKeep(db: Db, past: History, change: CredentialChange)
    requires DbOk(db, past)
    ensures DbOk(ChangeCredentials(db, change), past) && Extends(db, past, ChangeCredentials(db, change), past)
  {
    CredentialsKeepRows(db, past, change);
    CredentialsKeepTokens(db, past, change);
  }

  function WithEnrollment(db: Db, secret: string, credentials: set<int>): Db {
    db.(enrollments := db.enrollments[OfSecret(secret) := Enrollment(db.nextEnrollment, true, false, "", None, credentials)],
        nextEnrollment := db.nextEnrollment + 1)
  }

  lemma EnrollTokens(db: Db, past: History, secret: string, credentials: set<int>)
    requires DbOk(db, past) && secret !in past.device
    ensures OfSecret(secret) !in db.enrollments && OfSecret(secret) !in past.claims
    ensures TokensOk(WithEnrollment(db, secret, credentials), past.(device := past.device + {secret}))
  {
    var db', past' := WithEnrollment(db, secret, credentials), past.(device := past.device + {secret});
    forall h | h in db.enrollments ensures h != OfSecret(secret) && TokenOk(db', past', h) {
      assert TokenOk(db, past, h);
    }
    assert TokenOk(db', past', OfSecret(secret));
  }

  lemma EnrollKeeps(db: Db, past: History, secret: string, credentials: set<int>)
    requires DbOk(db, past) && secret !in past.device
    ensures var past' := past.(device := past.device + {secret});
            var db' := WithEnrollment(db, secret, credentials);
            DbOk(db', past') && Extends(db, past, db', past')
  {
    IssueKeeps(db, past, secret);
    EnrollTokens(db, past, secret, credentials);
  }

  // ---- steps ----

  // The mutex holder moves on; nothing else changes.
  lemma StageChange(s: System, stage: Stage)
    requires Inv(s) && s.mutex.Admitting? && StageOk(s.db, s.past, s.mutex.a.(stage := stage))
    ensures Inv(WithStage(s, stage))
  {
  }

  lemma AdmitTables(s: System, db': Db, past': History, stage: Stage)
    requires Inv(s) && s.mutex.Admitting? && db'.settings == s.db.settings
    requires DbOk(db', past') && Extends(s.db, s.past, db', past')
    requires StageOk(db', past', s.mutex.a.(stage := stage))
    ensures Inv(WithStage(s, stage).(db := db', past := past'))
  {
    TablesChange(s, db', past');
    StageChange(s.(db := db', past := past'), stage);
  }

  lemma RegisterKeyKeeps(s: System)
    requires Inv(s) && AtStage(s, SharedKey)
    ensures Inv(AdmitApply(s, RegisterKey))
    ensures Extends(s.db, s.past, AdmitApply(s, RegisterKey).db, AdmitApply(s, RegisterKey).past)
  {
    var a := s.mutex.a;
    match RegisterShared(s.db, a.presented, a.hostname)
    case Err(_) => StageChange(s, Failed);
    case Ok(r) =>
      RegisterKeeps(s.db, s.past, a.presented, a.hostname);
      var f := Fold(a.hostname);
      AdmitTables(s, r.db, s.past.(firsts := if f in s.past.firsts then s.past.firsts else s.past.firsts[f := r.id]),
                  Resolved(r.id, PeerHash(a.presented, a.hostname)));
  }

  // A first claim leaves a history of one route.
  lemma ClaimedIs(s: System, r: Bound, past': History)
    requires AtStage(s, Claiming) && ClaimEnrollment(s.db, s.mutex.a.presented, s.mutex.a.hostname) == Ok(r)
    requires s.mutex.a.presented !in s.past.claims
    requires past' == s.past.(claims := s.past.claims[s.mutex.a.presented := [r.id]])
    ensures AdmitApply(s, ClaimToken) == WithStage(s, Resolved(r.id, s.mutex.a.presented)).(db := r.db, past := past')
  {
    assert [] + [r.id] == [r.id];
  }

  lemma ClaimTokenKeeps(s: System)
    requires Inv(s) && AtStage(s, Claiming)
    ensures Inv(AdmitApply(s, ClaimToken))
    ensures Extends(s.db, s.past, AdmitApply(s, ClaimToken).db, AdmitApply(s, ClaimToken).past)
  {
    var a := s.mutex.a;
    match ClaimEnrollment(s.db, a.presented, a.hostname)
    case Err(_) => StageChange(s, Failed);
    case Ok(r) =>
      var past' := s.past.(claims := s.past.claims[a.presented := [r.id]]);
      ClaimKeeps(s.db, s.past, a.presented, a.hostname);
      ClaimedIs(s, r, past');
      AdmitTables(s, r.db, past', Resolved(r.id, a.presented));
  }

  // A row found by its hash grants exactly the route the hash was issued for.
  lemma FindRowKeeps(s: System, row: Option<int>)
    requires Inv(s) && AdmitEnabled(s, FindRow(row))
    ensures Inv(AdmitApply(s, FindRow(row)))
  {
    StageChange(s, AfterFind(s.db, row));
  }

  lemma CheckTokenKeeps(s: System)
    requires Inv(s) && AdmitEnabled(s, CheckToken)
    ensures Inv(AdmitApply(s, CheckToken))
  {
    StageChange(s, if EnrollmentAgrees(s.db, s.mutex.a.presented, s.mutex.a.hostname)
                   then Resolved(s.mutex.a.stage.id, s.mutex.a.presented) else Failed);
  }

  lemma InsertKeeps(s: System)
    requires Inv(s) && AdmitEnabled(s, Insert)
    ensures Inv(AdmitApply(s, Insert))
  {
    if s.mutex.a.stage.id in s.peers {
      StageChange(s, Failed);
    }
  }

  lemma AdmitKeeps(s: System, step: AdmitStep)
    requires Inv(s) && AdmitEnabled(s, step)
    requires !step.Lock?
    ensures Inv(AdmitApply(s, step))
    ensures Extends(s.db, s.past, AdmitApply(s, step).db, AdmitApply(s, step).past)
  {
    match step
    case ReadSettings => StageChange(s, AfterSettings(s.db, s.mutex.a));
    case RegisterKey => RegisterKeyKeeps(s);
    case FindRow(row) => FindRowKeeps(s, row);
    case CheckToken => CheckTokenKeeps(s);
    case ReadToken =>
      StageChange(s, if ValidHostname(s.mutex.a.hostname) && Claimable(s.db, s.mutex.a.presented) then Claiming else Failed);
    case ClaimToken => ClaimTokenKeeps(s);
    case Insert => InsertKeeps(s);
    case GiveUp =>
    case Abort => StageChange(s, Failed);
    case Teardown(id, conn) =>
  }

  // Time passes.
  lemma TickKeeps(s: System)
    requires Inv(s)
    ensures Inv(s.(clock := s.clock + 1))
  {
  }

  lemma LockKeeps(s: System, secret: string, hostname: string)
    requires Inv(s) && s.mutex.Free?
    ensures Inv(AdmitApply(s, Lock(secret, hostname)).(clock := s.clock + 1))
  {
  }

  // A handler moves on; it is not yet past its Disconnect.
  ghost predicate MovesForward(s: System, hs: seq<Handler>) {
    forall h | 0 <= h < |hs| ::
      || (h < |s.handlers| && hs[h] == s.handlers[h])
      || (!hs[h].Returned? && (hs[h].Toggled? || hs[h].Disconnecting? ==> hs[h].wrote <= s.clock))
  }

  lemma HandlerMoves(s: System, hs: seq<Handler>)
    requires Inv(s) && MovesForward(s, hs)
    ensures Inv(s.(handlers := hs, clock := s.clock + 1))
  {
  }

  lemma DisconnectKeeps(s: System, h: nat)
    requires Inv(s) && HandlerEnabled(s, Disconnect(h))
    ensures Inv(HandlerApply(s, Disconnect(h)))
  {
  }

  lemma ResetKeeps(s: System, rows: Option<set<int>>)
    requires Inv(s) && s.mutex.Resetting?
    ensures Inv(SettingsApply(s, Reset(rows)))
    ensures Extends(s.db, s.past, s.db, SettingsApply(s, Reset(rows)).past)
  {
    var s' := SettingsApply(s, Reset(rows));
    MissedKeeps(s.db, s.past, s'.past);
    forall id | id in s'.peers ensures GrantOk(s.db, s'.past, s'.peers[id].presented, id, s'.peers[id].hash) {
      assert GrantOk(s.db, s.past, s.peers[id].presented, id, s.peers[id].hash);
    }
  }

  // Which connections outlived a reset does not concern the tables.
  lemma MissedKeeps(db: Db, past: History, past': History)
    requires DbOk(db, past) && past' == past.(missed := past'.missed) && past.missed <= past'.missed
    ensures DbOk(db, past') && Extends(db, past, db, past')
  {
    forall h | h in db.enrollments ensures TokenOk(db, past', h) {
      assert TokenOk(db, past, h);
    }
  }

  // Neither key nor mutex holder is affected.
  lemma AddressKeeps(s: System, address: string, token: Cell)
    requires Inv(s) && s.mutex.Free?
    ensures Inv(SettingsApply(s, SaveAddressOnly(address, token)))
    ensures Extends(s.db, s.past, SaveAddress(s.db, address, token), s.past)
  {
    TablesSettings(s.db, s.past, s.past, SaveAddress(s.db, address, token).settings);
  }

  lemma DisableKeeps(s: System)
    requires Inv(s) && s.mutex.Free?
    ensures Inv(SettingsApply(s, Disable))
    ensures Extends(s.db, s.past, DisableSettings(s.db), s.past)
  {
    TablesSettings(s.db, s.past, s.past, DisableSettings(s.db).settings);
  }

  lemma SettingsKeep(s: System, step: SettingsStep)
    requires Inv(s) && SettingsEnabled(s, step)
    ensures Inv(SettingsApply(s, step))
    ensures Extends(s.db, s.past, SettingsApply(s, step).db, SettingsApply(s, step).past)
  {
    match step
    case Save(address, secret, token) => SaveKeeps(s, address, secret, token);
    case SaveAddressOnly(address, token) => AddressKeeps(s, address, token);
    case Disable => DisableKeeps(s);
    case Reset(rows) => ResetKeeps(s, rows);
  }

  // The tables other than settings do not depend on settings.
  lemma TablesSettings(db: Db, past: History, past': History, settings: Option<Settings>)
    requires DbOk(db, past)
    requires past' == past.(shared := past'.shared) && past.shared.Keys <= past'.shared.Keys
    requires settings.Some? ==> settings.value.hash == NoHash || Issued(settings.value.hash, past'.shared.Keys)
    ensures DbOk(db.(settings := settings), past')
    ensures Extends(db, past, db.(settings := settings), past')
  {
    var db' := db.(settings := settings);
    forall h | h in db'.enrollments ensures TokenOk(db', past', h) {
      assert TokenOk(db, past, h);
    }
  }

  lemma SaveKeeps(s: System, address: string, secret: string, token: Cell)
    requires Inv(s) && SettingsEnabled(s, Save(address, secret, token))
    ensures Inv(SettingsApply(s, Save(address, secret, token)))
    ensures Extends(s.db, s.past, SaveSettings(s.db, address, OfSecret(secret), token), s.past.(shared := s.past.shared[secret := s.clock]))
  {
    var past' := s.past.(shared := s.past.shared[secret := s.clock]);
    var db' := SaveSettings(s.db, address, OfSecret(secret), token);
    TablesSettings(s.db, s.past, past', db'.settings);
    forall id | id in s.peers ensures GrantOk(db', past', s.peers[id].presented, id, s.peers[id].hash) {
      GrantExtends(s.db, s.past, db', past', s.peers[id].presented, id, s.peers[id].hash);
    }
  }

  lemma WriteKeeps(s: System, s': System)
    requires Inv(s) && TablesKept(s, s') && MovesForward(s, s'.handlers)
    requires s' == s.(db := s'.db, past := s'.past, handlers := s'.handlers)
    ensures Inv(s'.(clock := s.clock + 1))
  {
    var t := s.(db := s'.db, past := s'.past);
    TablesChange(s, s'.db, s'.past);
    HandlerMoves(t, s'.handlers);
  }

  lemma UpsertRowKeeps(db: Db, past: History, v: RouteRequest)
    requires DbOk(db, past) && Upsert(db, v).Ok?
    ensures var db' := Upsert(db, v).value;
            DbOk(db', past) && Extends(db, past, db', past) && db'.settings == db.settings
  {
    UpsertWrites(db, v);
    SameHashKeeps(db, past, Upsert(db, v).value);
  }

  predicate IssuesOrRevokes(step: HandlerStep) {
    step.WriteRotate? || step.StartRevoke? || step.StartEnrollment?
  }

  predicate EditsRoutes(step: HandlerStep) {
    step.StartUpsert? || step.StartToggle? || step.WriteDelete? || step.EditCredentials?
  }

  // The table changes of the handlers, whatever else they do.
  ghost predicate TablesKept(s: System, s': System) {
    DbOk(s'.db, s'.past) && Extends(s.db, s.past, s'.db, s'.past) && s'.db.settings == s.db.settings
  }

  lemma RotateTables(s: System, h: nat, secret: string)
    requires DbOk(s.db, s.past) && HandlerEnabled(s, WriteRotate(h, secret))
    ensures TablesKept(s, HandlerApply(s, WriteRotate(h, secret)))
  {
    RotateKeeps(s.db, s.past, s.handlers[h].id, secret);
  }

  lemma RevokeTables(s: System, token: Hash)
    requires DbOk(s.db, s.past)
    ensures TablesKept(s, HandlerApply(s, StartRevoke(token)))
  {
    if Revoke(s.db, token).Ok? {
      RevokeKeeps(s.db, s.past, token);
    }
  }

  lemma EnrollTables(s: System, secret: string, credentials: set<int>)
    requires DbOk(s.db, s.past) && HandlerEnabled(s, StartEnrollment(secret, credentials))
    ensures TablesKept(s, HandlerApply(s, StartEnrollment(secret, credentials)))
  {
    EnrollKeeps(s.db, s.past, secret, credentials);
  }

  lemma TokenTables(s: System, step: HandlerStep)
    requires DbOk(s.db, s.past) && HandlerEnabled(s, step) && IssuesOrRevokes(step)
    ensures TablesKept(s, HandlerApply(s, step))
  {
    match step
    case WriteRotate(h, secret) => RotateTables(s, h, secret);
    case StartRevoke(token) => RevokeTables(s, token);
    case StartEnrollment(secret, credentials) => EnrollTables(s, secret, credentials);
  }

  lemma UpsertTables(s: System, request: RouteRequest)
    requires DbOk(s.db, s.past) && HandlerEnabled(s, StartUpsert(request))
    ensures TablesKept(s, HandlerApply(s, StartUpsert(request)))
  {
    if Upsert(s.db, Validate(request).value).Ok? {
      UpsertRowKeeps(s.db, s.past, Validate(request).value);
    }
  }

  lemma DeleteTables(s: System, h: nat, row: Option<int>)
    requires DbOk(s.db, s.past) && HandlerEnabled(s, WriteDelete(h, row))
    ensures TablesKept(s, HandlerApply(s, WriteDelete(h, row)))
  {
    if row.Some? {
      DeleteKeeps(s.db, s.past, row.value);
    }
  }

  lemma RouteTables(s: System, step: HandlerStep)
    requires DbOk(s.db, s.past) && HandlerEnabled(s, step) && EditsRoutes(step)
    ensures TablesKept(s, HandlerApply(s, step))
  {
    match step
    case StartUpsert(request) => UpsertTables(s, request);
    case StartToggle(name, id, enabled) => SameHashKeeps(s.db, s.past, SetEnabled(s.db, id, enabled));
    case WriteDelete(h, row) => DeleteTables(s, h, row);
    case EditCredentials(change) => CredentialsKeep(s.db, s.past, change);
  }

  // These steps touch tables, history and handlers only, and move handlers forward.
  lemma WritersMove(s: System, step: HandlerStep)
    requires HandlerEnabled(s, step) && (IssuesOrRevokes(step) || EditsRoutes(step))
    ensures var s' := HandlerApply(s, step);
            && s' == s.(db := s'.db, past := s'.past, handlers := s'.handlers)
            && MovesForward(s, s'.handlers)
  {
  }

  lemma WriterKeeps(s: System, step: HandlerStep)
    requires Inv(s) && HandlerEnabled(s, step) && (IssuesOrRevokes(step) || EditsRoutes(step))
    ensures Inv(HandlerApply(s, step).(clock := s.clock + 1))
    ensures Extends(s.db, s.past, HandlerApply(s, step).db, HandlerApply(s, step).past)
  {
    if IssuesOrRevokes(step) {
      TokenTables(s, step);
    } else {
      RouteTables(s, step);
    }
    WritersMove(s, step);
    WriteKeeps(s, HandlerApply(s, step));
  }

  predicate OnlyStarts(step: HandlerStep) {
    step.StartRotate? || step.StartDelete? || step.ReadToggled?
  }

  // These steps move handlers forward and do nothing else.
  lemma StarterKeeps(s: System, step: HandlerStep)
    requires Inv(s) && HandlerEnabled(s, step) && OnlyStarts(step)
    ensures Inv(HandlerApply(s, step).(clock := s.clock + 1))
    ensures HandlerApply(s, step).db == s.db && HandlerApply(s, step).past == s.past
  {
    var hs := HandlerApply(s, step).handlers;
    assert MovesForward(s, hs);
    HandlerMoves(s, hs);
  }

  lemma DisconnectStepKeeps(s: System, h: nat)
    requires Inv(s) && HandlerEnabled(s, Disconnect(h))
    ensures Inv(HandlerApply(s, Disconnect(h)).(clock := s.clock + 1))
    ensures HandlerApply(s, Disconnect(h)).db == s.db && HandlerApply(s, Disconnect(h)).past == s.past
  {
    DisconnectKeeps(s, h);
    TickKeeps(HandlerApply(s, Disconnect(h)));
  }

  lemma ExtendsSelf(db: Db, past: History)
    ensures Extends(db, past, db, past)
  {
  }

  lemma HandlerKeeps(s: System, step: HandlerStep)
    requires Inv(s) && HandlerEnabled(s, step)
    ensures Inv(HandlerApply(s, step).(clock := s.clock + 1))
    ensures Extends(s.db, s.past, HandlerApply(s, step).db, HandlerApply(s, step).past)
  {
    ExtendsSelf(s.db, s.past);
    if IssuesOrRevokes(step) || EditsRoutes(step) {
      WriterKeeps(s, step);
    } else if step.Disconnect? {
      DisconnectStepKeeps(s, step.h);
    } else {
      StarterKeeps(s, step);
    }
  }

  lemma LaterAdmitKeeps(s: System, step: AdmitStep)
    requires Inv(s) && AdmitEnabled(s, step) && !step.Lock?
    ensures Inv(AdmitApply(s, step).(clock := s.clock + 1))
  {
    AdmitKeeps(s, step);
    AdmitKeepsTime(s, step);
    TickKeeps(AdmitApply(s, step));
  }

  lemma LockExtends(s: System, step: AdmitStep)
    requires AdmitEnabled(s, step) && step.Lock?
    ensures AdmitApply(s, step).db == s.db && AdmitApply(s, step).past == s.past
    ensures Extends(s.db, s.past, s.db, s.past)
  {
  }

  lemma AdmitStepKeeps(s: System, step: AdmitStep)
    requires Inv(s) && AdmitEnabled(s, step)
    ensures Inv(AdmitApply(s, step).(clock := s.clock + 1))
    ensures Extends(s.db, s.past, AdmitApply(s, step).db, AdmitApply(s, step).past)
  {
    if step.Lock? {
      LockKeeps(s, step.secret, step.hostname);
      LockExtends(s, step);
    } else {
      LaterAdmitKeeps(s, step);
      AdmitKeeps(s, step);
    }
  }

  lemma AdmitKeepsTime(s: System, step: AdmitStep)
    requires AdmitEnabled(s, step)
    ensures AdmitApply(s, step).clock == s.clock
  {
  }

  lemma SettingsStepKeeps(s: System, step: SettingsStep)
    requires Inv(s) && SettingsEnabled(s, step)
    ensures Inv(SettingsApply(s, step).(clock := s.clock + 1))
    ensures Extends(s.db, s.past, SettingsApply(s, step).db, SettingsApply(s, step).past)
  {
    SettingsKeep(s, step);
    TickKeeps(SettingsApply(s, step));
  }

  lemma StepKeeps(s: System, step: Step)
    requires Inv(s) && Enabled(s, step)
    ensures Inv(Apply(s, step))
    ensures Extends(s.db, s.past, Apply(s, step).db, Apply(s, step).past)
  {
    match step
    case Admit(a) => AdmitStepKeeps(s, a);
    case Handle(h) => HandlerKeeps(s, h);
    case Configure(c) => SettingsStepKeeps(s, c);
  }

  lemma ExtendsTwice(a: Db, past: History, b: Db, past': History, c: Db, past'': History)
    requires Extends(a, past, b, past') && Extends(b, past', c, past'')
    ensures Extends(a, past, c, past'')
  {
  }

  ghost predicate Later(s: System, s': System) {
    Extends(s.db, s.past, s'.db, s'.past)
  }

  lemma LaterSelf(s: System)
    ensures Later(s, s)
  {
  }

  lemma LaterTwice(a: System, b: System, c: System)
    requires Later(a, b) && Later(b, c)
    ensures Later(a, c)
  {
    ExtendsTwice(a.db, a.past, b.db, b.past, c.db, c.past);
  }

  lemma NextKeeps(s: System, s': System)
    requires Inv(s) && Reaches(s, s')
    ensures Inv(s') && s'.clock == s.clock + 1 && Later(s, s')
  {
    var step :| Enabled(s, step) && s' == Apply(s, step);
    StepKeeps(s, step);
  }

  lemma {:induction false} RunKeeps(trace: seq<System>, i: nat)
    requires IsRun(trace) && i < |trace|
    ensures Inv(trace[i]) && trace[i].clock == i
  {
    if i == 0 {
      InitKeeps();
    } else {
      RunKeeps(trace, i - 1);
      PathStep(trace, i);
      NextKeeps(trace[i - 1], trace[i]);
    }
  }

  lemma InitKeeps()
    ensures Inv(INIT) && INIT.clock == 0
  {
  }

  lemma RunNext(trace: seq<System>, j: nat)
    requires IsRun(trace) && 0 < j < |trace|
    ensures Later(trace[j - 1], trace[j])
  {
    RunKeeps(trace, j - 1);
    PathStep(trace, j);
    NextKeeps(trace[j - 1], trace[j]);
  }

  lemma {:induction false} RunExtends(trace: seq<System>, i: nat, j: nat)
    requires IsRun(trace) && i <= j < |trace|
    ensures Later(trace[i], trace[j])
    decreases j
  {
    if i == j {
      LaterSelf(trace[i]);
    } else {
      RunExtends(trace, i, j - 1);
      RunNext(trace, j);
      LaterTwice(trace[i], trace[j - 1], trace[j]);
    }
  }
}
