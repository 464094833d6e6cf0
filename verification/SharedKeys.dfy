/** Exactly when a replaced shared key can still be accepted: over all continuations of
    a run, without the key being saved again (self_registration.go, resolveAgent;
    enrollment.go, authenticateAgent). */
module SharedKeys {
  import opened Wrappers
  import opened Tables
  import opened EnrollmentTokens
  import opened Registration
  import opened Routing
  import opened Stores
  import opened AgentIdentity
  import opened IdentitySafety
  import opened IdentityRuns
  import opened IdentityResults

  // ---- a route never holds the hash of a revoked token ----

  ghost predicate HeldEnabled(db: Db) {
    forall id | id in db.servers && db.servers[id].hash in db.enrollments :: db.enrollments[db.servers[id].hash].enabled
  }

  lemma TokensAreSecrets(db: Db, past: History)
    requires DbOk(db, past)
    ensures forall h | h in db.enrollments :: Issued(h, past.device)
  {
    forall h | h in db.enrollments ensures Issued(h, past.device) {
      assert TokenOk(db, past, h);
    }
  }

  lemma AdmitKeepsHeld(s: System, step: AdmitStep)
    requires Inv(s) && HeldEnabled(s.db) && AdmitEnabled(s, step)
    ensures HeldEnabled(AdmitApply(s, step).db)
  {
    TokensAreSecrets(s.db, s.past);
    if step.RegisterKey? {
      RegisterKeepsHeld(s.db, s.past, s.mutex.a.presented, s.mutex.a.hostname);
    } else if step.ClaimToken? {
      ClaimKeepsHeld(s.db, s.mutex.a.presented, s.mutex.a.hostname);
    } else {
      assert AdmitApply(s, step).db == s.db;
    }
  }

  lemma RegisterKeepsHeld(db: Db, past: History, key: Hash, hostname: string)
    requires HeldEnabled(db) && forall h | h in db.enrollments :: Issued(h, past.device)
    ensures var r := RegisterShared(db, key, hostname); r.Ok? ==> HeldEnabled(r.value.db)
  {
  }

  lemma ClaimKeepsHeld(db: Db, h: Hash, hostname: string)
    requires HeldEnabled(db)
    ensures var r := ClaimEnrollment(db, h, hostname); r.Ok? ==> HeldEnabled(r.value.db)
  {
    if ClaimEnrollment(db, h, hostname).Ok? {
      ClaimShape(db, h, hostname);
    }
  }

  // The one route that can hold a token's hash loses it with the token.
  lemma RevokeKeepsHeld(db: Db, past: History, h: Hash)
    requires DbOk(db, past) && HeldEnabled(db)
    ensures var r := Revoke(db, h); r.Ok? ==> HeldEnabled(r.value.db)
  {
    if h in db.enrollments {
      TokensAreSecrets(db, past);
      assert TokenOk(db, past, h);
    }
  }

  lemma HandlerKeepsHeld(s: System, step: HandlerStep)
    requires Inv(s) && HeldEnabled(s.db) && HandlerEnabled(s, step)
    ensures HeldEnabled(HandlerApply(s, step).db)
  {
    TokensAreSecrets(s.db, s.past);
    if IssuesOrRevokes(step) {
      TokenStepKeepsHeld(s, step);
    } else if EditsRoutes(step) {
      RouteStepKeepsHeld(s, step);
    } else {
      assert HandlerApply(s, step).db == s.db;
    }
  }

  lemma TokenStepKeepsHeld(s: System, step: HandlerStep)
    requires Inv(s) && HeldEnabled(s.db) && HandlerEnabled(s, step) && IssuesOrRevokes(step)
    requires forall h | h in s.db.enrollments :: Issued(h, s.past.device)
    ensures HeldEnabled(HandlerApply(s, step).db)
  {
    match step
    case WriteRotate(h, secret) =>
    case StartRevoke(token) => RevokeKeepsHeld(s.db, s.past, token);
    case StartEnrollment(secret, credentials) =>
  }

  lemma RouteStepKeepsHeld(s: System, step: HandlerStep)
    requires HeldEnabled(s.db) && HandlerEnabled(s, step) && EditsRoutes(step)
    requires forall h | h in s.db.enrollments :: Issued(h, s.past.device)
    ensures HeldEnabled(HandlerApply(s, step).db)
  {
    match step
    case StartUpsert(request) => UpsertKeepsHeld(s.db, s.past, Validate(request).value);
    case StartToggle(name, id, enabled) =>
    case WriteDelete(h, row) =>
    case EditCredentials(change) =>
  }

  lemma UpsertKeepsHeld(db: Db, past: History, v: RouteRequest)
    requires HeldEnabled(db) && forall h | h in db.enrollments :: Issued(h, past.device)
    ensures Upsert(db, v).Ok? ==> HeldEnabled(Upsert(db, v).value)
  {
    if Upsert(db, v).Ok? {
      UpsertWrites(db, v);
    }
  }

  lemma NextKeepsHeld(s: System, s': System)
    requires Inv(s) && HeldEnabled(s.db) && Reaches(s, s')
    ensures HeldEnabled(s'.db)
  {
    var step :| Enabled(s, step) && s' == Apply(s, step);
    match step
    case Admit(a) => AdmitKeepsHeld(s, a);
    case Handle(h) => HandlerKeepsHeld(s, h);
    case Configure(c) => SettingsKeepTables(s, c);
  }

  lemma SettingsKeepTables(s: System, step: SettingsStep)
    requires SettingsEnabled(s, step)
    ensures SettingsApply(s, step).db.servers == s.db.servers && SettingsApply(s, step).db.enrollments == s.db.enrollments
  {
  }

  lemma {:induction false} RunKeepsHeld(trace: seq<System>, i: nat)
    requires IsRun(trace) && i < |trace|
    ensures HeldEnabled(trace[i].db)
  {
    if i == 0 {
    } else {
      RunKeepsHeld(trace, i - 1);
      RunKeeps(trace, i - 1);
      PathStep(trace, i);
      NextKeepsHeld(trace[i - 1], trace[i]);
    }
  }

  // ---- a key is stored only after it has been saved ----

  // The last save of a secret was at or after time t.
  predicate SavedSince(past: History, secret: string, t: nat) {
    secret in past.shared && past.shared[secret] >= t
  }

  lemma NextSaves(s: System, s': System, secret: string, t: nat)
    requires Reaches(s, s') && t <= s.clock
    ensures SavedSince(s.past, secret, t) ==> SavedSince(s'.past, secret, t)
    ensures !HoldsKey(s.db, OfSecret(secret)) && HoldsKey(s'.db, OfSecret(secret)) ==> SavedSince(s'.past, secret, t)
  {
    var step :| Enabled(s, step) && s' == Apply(s, step);
    match step
    case Admit(a) => AdmitKeepsKey(s, a);
    case Handle(h) => HandlerKeepsKey(s, h);
    case Configure(c) =>
  }

  lemma AdmitKeepsKey(s: System, step: AdmitStep)
    requires AdmitEnabled(s, step)
    ensures AdmitApply(s, step).db.settings == s.db.settings && AdmitApply(s, step).past.shared == s.past.shared
  {
  }

  lemma HandlerKeepsKey(s: System, step: HandlerStep)
    requires HandlerEnabled(s, step)
    ensures HandlerApply(s, step).db.settings == s.db.settings && HandlerApply(s, step).past.shared == s.past.shared
  {
  }

  lemma {:induction false} StoredMeansSaved(trace: seq<System>, i: nat, k: nat, secret: string)
    requires IsRun(trace) && i <= k < |trace| && !HoldsKey(trace[i].db, OfSecret(secret))
    ensures HoldsKey(trace[k].db, OfSecret(secret)) ==> SavedSince(trace[k].past, secret, i)
    decreases k
  {
    if i == k {
    } else {
      StoredMeansSaved(trace, i, k - 1, secret);
      RunKeeps(trace, k - 1);
      PathStep(trace, k);
      NextSaves(trace[k - 1], trace[k], secret, i);
    }
  }

  // ---- continuations ----

  // From any world to one in which nobody holds the mutex.
  lemma FreeRun(trace: seq<System>) returns (next: seq<System>)
    requires IsRun(trace)
    ensures Continues(trace, next) && Last(next).mutex.Free?
    ensures Last(next).db == Last(trace).db && Last(next).past.shared == Last(trace).past.shared
  {
    match Last(trace).mutex
    case Free => next := trace;
    case Admitting(_) =>
      next := Go(trace, Abort);
      next := Go(next, GiveUp);
    case Resetting => next := SettingsGo(trace, Reset(None));
  }

  // What a token's row says, but for the route it is linked to.
  ghost predicate SameToken(db: Db, db': Db, h: Hash) {
    && (h in db'.enrollments <==> h in db.enrollments)
    && (h in db.enrollments ==>
          db'.enrollments[h].(server := None) == db.enrollments[h].(server := None))
  }

  // What deleting other routes leaves.
  ghost predicate Spared(s: System, s': System, h: Hash, keep: Option<int>) {
    && s'.mutex.Free? && s'.db.settings == s.db.settings && s'.past.shared == s.past.shared
    && SameToken(s.db, s'.db, h)
    && (forall id | id in s'.db.servers :: id in s.db.servers && s'.db.servers[id] == s.db.servers[id])
    && (keep.Some? && keep.value in s.db.servers ==> keep.value in s'.db.servers)
  }

  lemma DeleteRun(trace: seq<System>, id: int, h: Hash, keep: Option<int>) returns (next: seq<System>)
    requires IsRun(trace) && Last(trace).mutex.Free? && id in Last(trace).db.servers && keep != Some(id)
    ensures Continues(trace, next) && Spared(Last(trace), Last(next), h, keep)
    ensures Last(next).db.servers == Last(trace).db.servers - {id}
  {
    var name, i := Last(trace).db.servers[id].name, |Last(trace).handlers|;
    next := HandlerGo(trace, StartDelete(name, None));
    next := HandlerGo(next, WriteDelete(i, Some(id)));
  }

  lemma SparedTwice(a: System, b: System, c: System, h: Hash, keep: Option<int>)
    requires Spared(a, b, h, keep) && Spared(b, c, h, keep)
    ensures Spared(a, c, h, keep)
  {
  }

  // All routes but one can be deleted.
  lemma {:induction false} ClearRun(trace: seq<System>, h: Hash, keep: Option<int>) returns (next: seq<System>)
    requires IsRun(trace) && Last(trace).mutex.Free?
    ensures Continues(trace, next) && Spared(Last(trace), Last(next), h, keep)
    ensures forall id | id in Last(next).db.servers :: Some(id) == keep
    decreases |Last(trace).db.servers.Keys|
  {
    if forall id | id in Last(trace).db.servers :: Some(id) == keep {
      next := trace;
    } else {
      var id :| id in Last(trace).db.servers && Some(id) != keep;
      var shorter := DeleteRun(trace, id, h, keep);
      FewerKeys(Last(trace).db.servers, id);
      next := ClearRun(shorter, h, keep);
      SparedTwice(Last(trace), Last(shorter), Last(next), h, keep);
    }
  }

  lemma FewerKeys(servers: map<int, Server>, id: int)
    requires id in servers
    ensures |(servers - {id}).Keys| < |servers.Keys|
  {
    assert (servers - {id}).Keys == servers.Keys - {id};
  }

  // The last world of this path is an admission with the secret that began at or after
  // time t and has been resolved, and the secret was not saved as the key since t.
  ghost predicate AcceptedSince(path: seq<System>, secret: string, t: nat)
    requires path != []
  {
    var s := Last(path);
    && s.mutex.Admitting? && s.mutex.a.presented == OfSecret(secret) && s.mutex.a.since >= t
    && s.mutex.a.stage.Resolved? && !SavedSince(s.past, secret, t)
  }

  // An admission that the device path resolves.
  lemma AcceptRun(trace: seq<System>, secret: string, hostname: string, db': Db, id: int, t: nat) returns (next: seq<System>)
    requires IsRun(trace) && Last(trace).mutex.Free? && Last(trace).clock >= t
    requires !HoldsKey(Last(trace).db, OfSecret(secret)) && !SavedSince(Last(trace).past, secret, t)
    requires Authenticated(Last(trace).db, db', OfSecret(secret), hostname, true, Ok(id))
    ensures Continues(trace, next) && AcceptedSince(next, secret, t)
    ensures Last(next).mutex.a.stage.id == id && Last(next).peers == Last(trace).peers
  {
    next := ResolveRun(trace, secret, hostname, db', Ok((id, OfSecret(secret))));
  }

  // The admission is about to map its connection.
  ghost predicate FreeToMap(path: seq<System>)
    requires path != []
  {
    Last(path).mutex.Admitting? && Last(path).mutex.a.stage.Resolved? && Last(path).mutex.a.stage.id !in Last(path).peers
  }

  // The connection of a route can end.
  lemma HangUpRun(trace: seq<System>, id: int) returns (next: seq<System>)
    requires IsRun(trace) && Last(trace).mutex.Free?
    ensures Continues(trace, next) && Last(next).mutex.Free? && id !in Last(next).peers
    ensures Last(next).db == Last(trace).db && Last(next).past == Last(trace).past
  {
    next := trace;
    if id in Last(trace).peers {
      next := Go(trace, Teardown(id, Last(trace).peers[id].conn));
    }
  }

  // An administrator can make any route an enabled agent route, when it is the only one.
  lemma ReviveRun(trace: seq<System>, id: int) returns (next: seq<System>)
    requires IsRun(trace) && Last(trace).mutex.Free? && id in Last(trace).db.servers
    requires forall j | j in Last(trace).db.servers :: j == id
    ensures Continues(trace, next) && Last(next).mutex.Free? && id in Last(next).db.servers
    ensures var s, s' := Last(trace), Last(next);
            && s'.db == s.db.(servers := s'.db.servers) && s'.past == s.past && s'.peers == s.peers
            && s'.db.servers[id].hash == s.db.servers[id].hash
            && s'.db.servers[id].kind == AgentServer && s'.db.servers[id].enabled
  {
    var q := RouteRequest(id, "a", "", 0, "", 0, 0, "agent", None, "", NoFingerprint);
    RunKeeps(trace, |trace| - 1);
    AgentRequestIsValid(q, Last(trace).db);
    next := HandlerGo(trace, StartUpsert(q));
    next := HandlerGo(next, StartToggle("a", id, true));
  }

  lemma AgentRequestIsValid(q: RouteRequest, db: Db)
    requires q == RouteRequest(q.id, "a", "", 0, "", 0, 0, "agent", None, "", NoFingerprint) && q.id > 0
    requires q.id in db.servers && forall j | j in db.servers :: j == q.id
    ensures Validate(q).Ok? && Upsert(db, Validate(q).value).Ok?
    ensures var db' := Upsert(db, Validate(q).value).value;
            && db' == db.(servers := db'.servers) && q.id in db'.servers
            && db'.servers[q.id].name == "a" && db'.servers[q.id].kind == AgentServer
            && db'.servers[q.id].hash == db.servers[q.id].hash
  {
    assert Trim("") == "";
    assert Occurrences("a", PORT) == 0;
  }

  // A route that holds the secret accepts it again.
  lemma HeldIsAccepted(trace: seq<System>, secret: string, id: int, t: nat) returns (next: seq<System>)
    requires IsRun(trace) && id in Last(trace).db.servers && Last(trace).db.servers[id].hash == OfSecret(secret)
    requires t < |trace| && !HoldsKey(Last(trace).db, OfSecret(secret)) && !SavedSince(Last(trace).past, secret, t)
    ensures Continues(trace, next) && AcceptedSince(next, secret, t) && FreeToMap(next)
  {
    var h := OfSecret(secret);
    next := FreeRun(trace);
    next := ClearRun(next, h, Some(id));
    next := HangUpRun(next, id);
    next := ReviveRun(next, id);
    RunKeepsHeld(next, |next| - 1);
    RunKeeps(next, |next| - 1);
    var db := Last(next).db;
    var hostname := if h in db.enrollments then db.enrollments[h].hostname else "";
    assert DeviceAnswer(db, h, hostname, id);
    assert Authenticated(db, db, h, hostname, true, Ok(id));
    next := AcceptRun(next, secret, hostname, db, id, t);
  }

  // A token that can claim accepts its secret.
  lemma ClaimableIsAccepted(trace: seq<System>, secret: string, t: nat) returns (next: seq<System>)
    requires IsRun(trace) && Claimable(Last(trace).db, OfSecret(secret))
    requires Last(trace).db.enrollments[OfSecret(secret)].credentials != {}
    requires t < |trace| && !HoldsKey(Last(trace).db, OfSecret(secret)) && !SavedSince(Last(trace).past, secret, t)
    ensures Continues(trace, next) && AcceptedSince(next, secret, t) && FreeToMap(next)
  {
    var h := OfSecret(secret);
    next := FreeRun(trace);
    next := ClearRun(next, h, None);
    RunKeeps(next, |next| - 1);
    var db := Last(next).db;
    assert forall id :: id !in db.servers;
    assert db.servers == map[];
    assert LeastFree(db.servers, "a", 1) == Some("a");
    var bound := ClaimEnrollment(db, h, "a").value;
    assert bound.id == db.nextServer && bound.id !in Last(next).peers;
    assert AwaitsClaim(db, h, "a");
    assert Authenticated(db, bound.db, h, "a", true, Ok(bound.id));
    next := AcceptRun(next, secret, "a", bound.db, bound.id, t);
  }

  // What is dead stays refused until it is saved again.
  lemma DeadIsRefused(trace: seq<System>, next: seq<System>, secret: string)
    requires IsRun(trace) && Continues(trace, next) && !HoldsKey(Last(trace).db, OfSecret(secret))
    requires Dead(Last(trace).db, Last(trace).past, secret)
    ensures !AcceptedSince(next, secret, |trace| - 1)
  {
    var i, k := |trace| - 1, |next| - 1;
    assert next[i] == Last(trace);
    DeadSecretIsNeverAccepted(next, i, k, secret);
    RunKeeps(next, k);
    StoredMeansSaved(next, i, k, secret);
  }

  /** A shared key that is not the stored one any more is accepted again by some
      continuation of the run in which it is not saved, if and only if a route holds it
      or a token with credentials can still claim with it. Then one of them goes on to
      map the connection. */
  lemma ReplacedKeyIsAcceptedIff(trace: seq<System>, secret: string)
    requires IsRun(trace) && secret in Last(trace).past.shared && !HoldsKey(Last(trace).db, OfSecret(secret))
    ensures (exists next :: Continues(trace, next) && AcceptedSince(next, secret, |trace| - 1))
            <==> !Dead(Last(trace).db, Last(trace).past, secret)
    ensures !Dead(Last(trace).db, Last(trace).past, secret) ==>
              exists next :: Continues(trace, next) && AcceptedSince(next, secret, |trace| - 1) && FreeToMap(next)
  {
    var db, past := Last(trace).db, Last(trace).past;
    if Dead(db, past, secret) {
      forall next | Continues(trace, next) ensures !AcceptedSince(next, secret, |trace| - 1) {
        DeadIsRefused(trace, next, secret);
      }
    } else {
      SavesAreEarlier(trace, secret);
      if id :| id in db.servers && db.servers[id].hash == OfSecret(secret) {
        var next := HeldIsAccepted(trace, secret, id, |trace| - 1);
      } else {
        var next := ClaimableIsAccepted(trace, secret, |trace| - 1);
      }
    }
  }

  lemma {:induction false} SavesBefore(trace: seq<System>, i: nat, secret: string)
    requires IsRun(trace) && i < |trace| && secret in trace[i].past.shared
    ensures trace[i].past.shared[secret] < i
  {
    if i == 0 {
    } else {
      RunKeeps(trace, i - 1);
      PathStep(trace, i);
      SaveTimes(trace[i - 1], trace[i], secret);
      if secret in trace[i - 1].past.shared {
        SavesBefore(trace, i - 1, secret);
      }
    }
  }

  lemma SaveTimes(s: System, s': System, secret: string)
    requires Reaches(s, s') && secret in s'.past.shared
    ensures s'.past.shared[secret] == s.clock || (secret in s.past.shared && s'.past.shared[secret] == s.past.shared[secret])
  {
    var step :| Enabled(s, step) && s' == Apply(s, step);
    match step
    case Admit(a) => AdmitKeepsKey(s, a);
    case Handle(h) => HandlerKeepsKey(s, h);
    case Configure(c) =>
  }

  lemma SavesAreEarlier(trace: seq<System>, secret: string)
    requires IsRun(trace)
    ensures !SavedSince(Last(trace).past, secret, |trace| - 1)
  {
    if secret in Last(trace).past.shared {
      SavesBefore(trace, |trace| - 1, secret);
    }
  }

  /** A replaced key that was never a device's secret is dead. */
  lemma SharedOnlyIsDead(trace: seq<System>, secret: string)
    requires IsRun(trace) && secret in Last(trace).past.shared && secret !in Last(trace).past.device
    ensures Dead(Last(trace).db, Last(trace).past, secret)
  {
    RunKeeps(trace, |trace| - 1);
    TokensAreSecrets(Last(trace).db, Last(trace).past);
  }
}
