/** Runs of agent identity, built step by step. A whole admission that nothing
    interrupts is a run whose outcome is that of resolveAgent. */
module IdentityRuns {
  import opened Wrappers
  import opened Tables
  import opened EnrollmentTokens
  import opened Registration
  import opened Routing
  import opened Stores
  import opened AgentIdentity

  ghost function Last(trace: seq<System>): System
    requires trace != []
  {
    trace[|trace| - 1]
  }

  ghost function Then(trace: seq<System>, step: Step): seq<System>
    requires trace != [] && Enabled(Last(trace), step)
  {
    trace + [Apply(Last(trace), step)]
  }

  lemma ThenRuns(trace: seq<System>, step: Step)
    requires IsRun(trace) && Enabled(Last(trace), step)
    ensures IsRun(Then(trace, step)) && trace <= Then(trace, step)
    ensures Last(Then(trace, step)) == Apply(Last(trace), step)
  {
    var next := Then(trace, step);
    forall i | 0 < i < |next| ensures StepAt(next, i) {
      if i < |trace| {
        assert StepAt(trace, i);
        assert next[i - 1] == trace[i - 1] && next[i] == trace[i];
      } else {
        assert Reaches(next[i - 1], next[i]);
      }
    }
  }

  // A run that goes on from another one.
  ghost predicate Continues(trace: seq<System>, next: seq<System>) {
    IsRun(next) && trace <= next
  }

  // ---- the steps of one admission ----

  lemma Go(trace: seq<System>, step: AdmitStep) returns (next: seq<System>)
    requires IsRun(trace) && AdmitEnabled(Last(trace), step)
    ensures Continues(trace, next)
    ensures Last(next) == AdmitApply(Last(trace), step).(clock := Last(trace).clock + 1)
  {
    ThenRuns(trace, Admit(step));
    next := Then(trace, Admit(step));
  }

  // An admission in progress with nothing but the mutex changed since it began.
  ghost predicate Underway(start: System, s: System, stage: Stage, secret: string, hostname: string) {
    && s.mutex == Admitting(Admission(start.nextConn, OfSecret(secret), hostname, start.clock, stage))
    && s.peers == start.peers && s.nextConn == start.nextConn + 1 && s.handlers == start.handlers
    && s.past.shared == start.past.shared
  }

  // How an admission ends: mapped as the peer of a free route, or not at all.
  ghost predicate Admitted(start: System, s: System, secret: string, id: int, hash: Hash) {
    && s.mutex.Free? && s.nextConn == start.nextConn + 1 && s.handlers == start.handlers
    && s.peers == if id in start.peers then start.peers
                  else start.peers[id := Peer(start.nextConn, hash, OfSecret(secret), start.clock)]
  }

  ghost predicate Refused(start: System, s: System) {
    s.mutex.Free? && s.nextConn == start.nextConn + 1 && s.peers == start.peers && s.handlers == start.handlers
  }

  lemma FinishResolved(start: System, trace: seq<System>, secret: string, hostname: string, id: int, hash: Hash)
    returns (next: seq<System>)
    requires IsRun(trace) && Underway(start, Last(trace), Resolved(id, hash), secret, hostname)
    ensures Continues(trace, next) && Last(next).db == Last(trace).db
    ensures Admitted(start, Last(next), secret, id, hash)
  {
    next := Go(trace, Insert);
    if id in start.peers {
      next := Go(next, GiveUp);
    }
  }

  lemma FinishFailed(start: System, trace: seq<System>, secret: string, hostname: string) returns (next: seq<System>)
    requires IsRun(trace) && Underway(start, Last(trace), Failed, secret, hostname)
    ensures Continues(trace, next) && Last(next).db == Last(trace).db
    ensures Refused(start, Last(next))
  {
    next := Go(trace, GiveUp);
  }

  lemma EnterAdmission(trace: seq<System>, secret: string, hostname: string) returns (next: seq<System>)
    requires IsRun(trace) && Last(trace).mutex.Free?
    ensures Continues(trace, next) && Last(next).db == Last(trace).db
    ensures var s := Last(trace);
            Underway(s, Last(next), AfterSettings(s.db, Admission(s.nextConn, OfSecret(secret), hostname, s.clock, Begin)), secret, hostname)
  {
    next := Go(trace, Lock(secret, hostname));
    next := Go(next, ReadSettings);
  }

  // From the lookup by hash to its answer.
  lemma DeviceSteps(start: System, trace: seq<System>, secret: string, hostname: string, db': Db, r: Result<int>)
    returns (next: seq<System>)
    requires IsRun(trace) && Underway(start, Last(trace), DeviceKey, secret, hostname)
    requires Authenticated(Last(trace).db, db', OfSecret(secret), hostname, true, r)
    ensures Continues(trace, next) && Last(next).db == db'
    ensures Underway(start, Last(next), if r.Ok? then Resolved(r.value, OfSecret(secret)) else Failed, secret, hostname)
  {
    var db, hash := Last(trace).db, OfSecret(secret);
    if r.Ok? && db' == db && DeviceAnswer(db, hash, hostname, r.value) {
      next := Go(trace, FindRow(Some(r.value)));
      next := Go(next, CheckToken);
    } else if NoDeviceRow(db, hash) {
      next := Go(trace, FindRow(None));
      next := Go(next, ReadToken);
      if AwaitsClaim(db, hash, hostname) {
        next := Go(next, ClaimToken);
      }
    } else {
      var id :| IsDeviceRow(db, hash, id) && !DeviceAnswer(db, hash, hostname, id);
      next := Go(trace, FindRow(Some(id)));
      if db.servers[id].enabled {
        next := Go(next, CheckToken);
      }
    }
  }

  // resolveAgent, called while the hub is locked, up to its result.
  lemma ResolveRun(trace: seq<System>, secret: string, hostname: string, db': Db, r: Result<(int, Hash)>)
    returns (next: seq<System>)
    requires IsRun(trace) && Last(trace).mutex.Free?
    requires AgentResolved(Last(trace).db, db', OfSecret(secret), hostname, true, r)
    ensures Continues(trace, next) && Last(next).db == db'
    ensures Underway(Last(trace), Last(next), if r.Ok? then Resolved(r.value.0, r.value.1) else Failed, secret, hostname)
  {
    var start := Last(trace);
    next := EnterAdmission(trace, secret, hostname);
    if !HoldsKey(start.db, OfSecret(secret)) {
      next := DeviceSteps(start, next, secret, hostname, db', if r.Ok? then Ok(r.value.0) else Err(""));
    } else if start.db.settings.value.enabled && ValidHostname(hostname) {
      next := Go(next, RegisterKey);
    }
  }

  /** resolveAgent, called while the hub is locked, is a run of admission steps. */
  lemma AdmissionIsRun(trace: seq<System>, secret: string, hostname: string, db': Db, r: Result<(int, Hash)>)
    returns (next: seq<System>)
    requires IsRun(trace) && Last(trace).mutex.Free?
    requires AgentResolved(Last(trace).db, db', OfSecret(secret), hostname, true, r)
    ensures Continues(trace, next) && Last(next).db == db'
    ensures if r.Ok? then Admitted(Last(trace), Last(next), secret, r.value.0, r.value.1) else Refused(Last(trace), Last(next))
  {
    next := ResolveRun(trace, secret, hostname, db', r);
    if r.Ok? {
      next := FinishResolved(Last(trace), next, secret, hostname, r.value.0, r.value.1);
    } else {
      next := FinishFailed(Last(trace), next, secret, hostname);
    }
  }

  // ---- the steps of a handler ----

  lemma HandlerGo(trace: seq<System>, step: HandlerStep) returns (next: seq<System>)
    requires IsRun(trace) && HandlerEnabled(Last(trace), step)
    ensures Continues(trace, next) && |next| == |trace| + 1
    ensures Last(next) == HandlerApply(Last(trace), step).(clock := Last(trace).clock + 1)
  {
    ThenRuns(trace, Handle(step));
    next := Then(trace, Handle(step));
  }

  lemma SettingsGo(trace: seq<System>, step: SettingsStep) returns (next: seq<System>)
    requires IsRun(trace) && SettingsEnabled(Last(trace), step)
    ensures Continues(trace, next)
    ensures Last(next) == SettingsApply(Last(trace), step).(clock := Last(trace).clock + 1)
  {
    ThenRuns(trace, Configure(step));
    next := Then(trace, Configure(step));
  }

  // The last handler disconnects its route.
  lemma DisconnectLast(trace: seq<System>) returns (next: seq<System>)
    requires IsRun(trace) && Last(trace).mutex.Free?
    requires |Last(trace).handlers| > 0 && Last(trace).handlers[|Last(trace).handlers| - 1].Disconnecting?
    ensures Continues(trace, next) && Last(next).mutex.Free?
    ensures var s := Last(trace);
            Last(next) == s.(clock := s.clock + 1, peers := s.peers - {s.handlers[|s.handlers| - 1].id}, handlers := Last(next).handlers)
  {
    next := HandlerGo(trace, Disconnect(|Last(trace).handlers| - 1));
  }

  /** Tokens do get claimed: from an empty store, with only a handler or none under
      way, a run in which a new token creates route 1 and its peer is mapped. */
  lemma ClaimRun(trace: seq<System>, secret: string, hostname: string, clients: map<int, ClientCredential>, c: int)
    returns (next: seq<System>)
    requires IsRun(trace) && Last(trace).mutex.Free? && Last(trace).db == EMPTY && Last(trace).peers == map[]
    requires secret !in Last(trace).past.device && secret !in Last(trace).past.shared
    requires ValidHostname(hostname) && c in clients
    ensures Continues(trace, next) && OfSecret(secret) in Last(next).db.enrollments
    ensures Last(next).db.enrollments[OfSecret(secret)].server == Some(1)
    ensures 1 in Last(next).peers && Last(next).peers[1].hash == OfSecret(secret)
    ensures Last(next).mutex.Free? && Named(Last(next).db.servers, hostname, 1) && Last(next).db.servers[1].enabled
    ensures DeviceAnswer(Last(next).db, OfSecret(secret), hostname, 1) && Last(next).db.settings == None
    ensures Last(next).handlers == Last(trace).handlers + [Done, Done]
  {
    next := HandlerGo(trace, EditCredentials(CredentialChange(clients, {}, map[], {})));
    assert c in clients.Keys;
    next := HandlerGo(next, StartEnrollment(secret, clients.Keys));
    var db := Last(next).db;
    assert db.servers == map[];
    assert LeastFree(db.servers, hostname, 1) == Some(hostname);
    var bound := ClaimEnrollment(db, OfSecret(secret), hostname).value;
    assert Authenticated(db, bound.db, OfSecret(secret), hostname, true, Ok(1));
    next := AdmissionIsRun(next, secret, hostname, bound.db, Ok((1, OfSecret(secret))));
  }
}
