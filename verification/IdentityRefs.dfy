/** References between the tables, over every run of agent identity: whatever handlers
    and admissions interleave, no row refers to a row that is gone and no login name is
    given twice (the foreign keys of store.go, enrollment.go and self_registration.go). */
module IdentityRefs {
  import opened Wrappers
  import opened Tables
  import opened Registration
  import opened Routing
  import opened Credentials
  import opened AgentIdentity
  import opened IdentitySafety

  predicate TokenRefers(e: Enrollment, db: Db) {
    e.credentials <= db.clientCredentials.Keys && (e.server.Some? ==> e.server.value in db.servers)
  }

  // Links, tokens and host names refer to existing rows, and login names are unique.
  ghost predicate Sound(db: Db) {
    && Refs(db)
    && (forall h | h in db.enrollments :: TokenRefers(db.enrollments[h], db))
    && (forall f | f in db.hosts :: db.hosts[f].Some? ==> db.hosts[f].value in db.servers)
  }

  // A route under a name that is free in every spelling.
  lemma InsertKeepsSound(db: Db, row: Server)
    requires Sound(db) && db.nextServer > 0 && FreeName(db.servers, row.name)
    ensures Sound(InsertServer(db, row))
  {
    var db' := InsertServer(db, row);
    forall i, j | i in db'.servers && j in db'.servers && db'.servers[i].name == db'.servers[j].name ensures i == j {
      assert i in db.servers ==> Fold(db.servers[i].name) != Fold(row.name);
      assert j in db.servers ==> Fold(db.servers[j].name) != Fold(row.name);
    }
  }

  // A hash or a flag changes nothing that is referred to.
  lemma RewriteKeepsSound(db: Db, id: int, row: Server)
    requires Sound(db) && id in db.servers && row.name == db.servers[id].name
    ensures Sound(db.(servers := db.servers[id := row]))
  {
    var db' := db.(servers := db.servers[id := row]);
    assert forall j | j in db'.servers :: j in db.servers && db'.servers[j].name == db.servers[j].name;
  }

  lemma RegisterKeepsSound(db: Db, key: Hash, hostname: string)
    requires Sound(db) && db.nextServer > 0 && RegisterShared(db, key, hostname).Ok?
    ensures Sound(RegisterShared(db, key, hostname).value.db)
  {
    if Fold(hostname) in db.hosts {
      var id := db.hosts[Fold(hostname)].value;
      RewriteKeepsSound(db, id, db.servers[id].(hash := PeerHash(key, hostname)));
    } else {
      InsertKeepsSound(db, AgentRow(hostname, hostname, PeerHash(key, hostname)));
    }
  }

  lemma ClaimKeepsSound(db: Db, hash: Hash, hostname: string)
    requires Sound(db) && db.nextServer > 0 && ClaimEnrollment(db, hash, hostname).Ok?
    ensures Sound(ClaimEnrollment(db, hash, hostname).value.db)
  {
    LeastFreeIsLeast(db.servers, hostname, 1);
    var name := LeastFree(db.servers, hostname, 1).value;
    InsertKeepsSound(db, AgentRow(name, hostname, hash));
    assert TokenRefers(db.enrollments[hash], db);
  }

  lemma RevokeKeepsSound(db: Db, hash: Hash)
    requires Sound(db) && Revoke(db, hash).Ok?
    ensures Sound(Revoke(db, hash).value.db)
  {
    var e := db.enrollments[hash];
    var db' := db.(enrollments := db.enrollments[hash := e.(enabled := false)]);
    forall h | h in db'.enrollments ensures TokenRefers(db'.enrollments[h], db') {
      assert TokenRefers(db.enrollments[h], db);
    }
    if e.server.Some? && e.server.value in db.servers {
      RewriteKeepsSound(db', e.server.value, db'.servers[e.server.value].(hash := NoHash));
    }
  }

  lemma UpsertKeepsSound(db: Db, v: RouteRequest)
    requires Sound(db) && db.nextServer > 0 && Upsert(db, v).Ok?
    ensures Sound(Upsert(db, v).value)
  {
    UpsertWrites(db, v);
    var db' := Upsert(db, v).value;
    forall h | h in db'.enrollments ensures TokenRefers(db'.enrollments[h], db') {
      assert TokenRefers(db.enrollments[h], db);
    }
  }

  lemma DeleteKeepsSound(db: Db, id: int)
    requires Sound(db)
    ensures Sound(DeleteServer(db, id))
  {
    var db' := DeleteServer(db, id);
    forall h | h in db'.enrollments ensures TokenRefers(db'.enrollments[h], db') {
      assert TokenRefers(db.enrollments[h], db);
    }
  }

  lemma EditKeepsSound(db: Db, c: CredentialChange)
    requires Sound(db) && forall p | p in c.links :: p.0 in db.servers && p.1 in c.clients
    ensures Sound(ChangeCredentials(db, c))
  {
    var db' := ChangeCredentials(db, c);
    forall h | h in db'.enrollments ensures TokenRefers(db'.enrollments[h], db') {
      assert TokenRefers(db.enrollments[h], db);
    }
  }

  lemma AdmitKeepsSound(s: System, step: AdmitStep)
    requires Inv(s) && Sound(s.db) && AdmitEnabled(s, step)
    ensures Sound(AdmitApply(s, step).db)
  {
    if step.RegisterKey? && RegisterShared(s.db, s.mutex.a.presented, s.mutex.a.hostname).Ok? {
      RegisterKeepsSound(s.db, s.mutex.a.presented, s.mutex.a.hostname);
    } else if step.ClaimToken? && ClaimEnrollment(s.db, s.mutex.a.presented, s.mutex.a.hostname).Ok? {
      ClaimKeepsSound(s.db, s.mutex.a.presented, s.mutex.a.hostname);
    }
  }

  lemma HandlerKeepsSound(s: System, step: HandlerStep)
    requires Inv(s) && Sound(s.db) && HandlerEnabled(s, step)
    ensures Sound(HandlerApply(s, step).db)
  {
    match step
    case WriteRotate(h, secret) =>
      var id := s.handlers[h].id;
      if id in s.db.servers {
        RewriteKeepsSound(s.db, id, s.db.servers[id].(hash := OfSecret(secret)));
      }
    case StartRevoke(token) =>
      if Revoke(s.db, token).Ok? {
        RevokeKeepsSound(s.db, token);
      }
    case StartUpsert(request) =>
      if Upsert(s.db, Validate(request).value).Ok? {
        UpsertKeepsSound(s.db, Validate(request).value);
      }
    case StartToggle(name, id, enabled) => RewriteKeepsSound(s.db, id, s.db.servers[id].(enabled := enabled));
    case WriteDelete(h, row) =>
      if row.Some? {
        DeleteKeepsSound(s.db, row.value);
      }
    case StartEnrollment(secret, credentials) => IssueKeepsSound(s.db, secret, credentials);
    case EditCredentials(change) => EditKeepsSound(s.db, change);
    case _ =>
  }

  lemma IssueKeepsSound(db: Db, secret: string, credentials: set<int>)
    requires Sound(db) && credentials <= db.clientCredentials.Keys
    ensures var e := Enrollment(db.nextEnrollment, true, false, "", None, credentials);
            Sound(db.(enrollments := db.enrollments[OfSecret(secret) := e], nextEnrollment := db.nextEnrollment + 1))
  {
    var e := Enrollment(db.nextEnrollment, true, false, "", None, credentials);
    var db' := db.(enrollments := db.enrollments[OfSecret(secret) := e], nextEnrollment := db.nextEnrollment + 1);
    forall h | h in db'.enrollments ensures TokenRefers(db'.enrollments[h], db') {
      assert h != OfSecret(secret) ==> TokenRefers(db.enrollments[h], db);
    }
  }

  lemma SettingsKeepSound(s: System, step: SettingsStep)
    requires Sound(s.db) && SettingsEnabled(s, step)
    ensures Sound(SettingsApply(s, step).db)
  {
    var db, db' := s.db, SettingsApply(s, step).db;
    assert db' == db.(settings := db'.settings);
    forall h | h in db'.enrollments ensures TokenRefers(db'.enrollments[h], db') {
      assert TokenRefers(db.enrollments[h], db);
    }
  }

  lemma StepKeepsSound(s: System, step: Step)
    requires Inv(s) && Sound(s.db) && Enabled(s, step)
    ensures Sound(Apply(s, step).db)
  {
    match step
    case Admit(a) => AdmitKeepsSound(s, a);
    case Handle(h) => HandlerKeepsSound(s, h);
    case Configure(c) => SettingsKeepSound(s, c);
  }

  lemma NextKeepsSound(s: System, s': System)
    requires Inv(s) && Sound(s.db) && Reaches(s, s')
    ensures Sound(s'.db)
  {
    var step :| Enabled(s, step) && s' == Apply(s, step);
    StepKeepsSound(s, step);
  }

  /** In every world of every run each link, each token and each host name refers to
      rows that exist, a token only to credentials that exist, and no two routes have
      one login name. */
  lemma {:induction false} ReferencesStaySound(trace: seq<System>, i: nat)
    requires IsRun(trace) && i < |trace|
    ensures Sound(trace[i].db)
  {
    if i > 0 {
      ReferencesStaySound(trace, i - 1);
      RunKeeps(trace, i - 1);
      PathStep(trace, i);
      NextKeepsSound(trace[i - 1], trace[i]);
    }
  }

  /** A deleted credential is gone from every route and every token at once, and the
      other credentials of a token stay. */
  lemma DeletedCredentialIsGone(db: Db, c: CredentialChange, h: Hash, credential: int)
    requires Sound(db) && HandlerMayEdit(db, c) && h in db.enrollments
    ensures var db' := ChangeCredentials(db, c);
            && h in db'.enrollments && db'.enrollments[h] == db.enrollments[h].(credentials := db'.enrollments[h].credentials)
            && (credential in db'.enrollments[h].credentials <==> credential in db.enrollments[h].credentials && credential in c.clients)
            && (credential !in c.clients ==> forall s :: (s, credential) !in db'.links)
  {
  }

  predicate HandlerMayEdit(db: Db, c: CredentialChange) {
    forall p | p in c.links :: p.0 in db.servers && p.1 in c.clients
  }
}
