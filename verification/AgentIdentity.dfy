/** Agent identity as a transition system: WebSocket admission under the hub's
    mutex (agent.go, ServeHTTP), the settings handlers that take the same mutex
    (self_registration.go), and the handlers that write first and disconnect
    afterwards (agent.go, enrollment.go, api.go). Every SQL statement or
    transaction outside a larger transaction is one step, so handlers interleave
    between the statements of an admission. */
module AgentIdentity {
  import opened Wrappers
  import opened Tables
  import opened EnrollmentTokens
  import opened Registration
  import opened Routing

  // A mapped connection: the hash it was resolved under, the hash of the token it
  // presented, and when its admission took the mutex.
  datatype Peer = Peer(conn: nat, hash: Hash, presented: Hash, since: nat)

  // Progress of resolveAgent(presented, hostname, true).
  datatype Stage =
    | Begin
    | SharedKey               // presented is the enabled shared key
    | DeviceKey
    | Matched(id: int)        // an enabled route holds this hash
    | Unmatched
    | Claiming                // the token exists, is enabled and unused
    | Resolved(id: int, hash: Hash)
    | Failed

  datatype Admission = Admission(conn: nat, presented: Hash, hostname: string, since: nat, stage: Stage)

  // Who holds AgentHub.mu: nobody, an admission, or a settings handler that still
  // has to disconnect registered peers.
  datatype Mutex = Free | Admitting(a: Admission) | Resetting

  // A handler that disconnects after writing; `wrote` is when it wrote.
  datatype Handler =
    | Rotating(id: int)
    | Toggled(name: string, id: int, wrote: nat)   // id: the row it wrote
    | Deleting(name: string, previous: Option<int>)
    | Disconnecting(id: int, wrote: nat)
    | Returned(id: int, wrote: nat)
    | Done

  // What has happened: secrets given to devices, when each secret was last saved
  // as a shared key, routes created per enrollment token, the first route of each host name, and the
  // connections that outlived a reset because their rows were not read.
  datatype History = History(
    device: set<string>, shared: map<string, nat>, claims: map<Hash, seq<int>>, firsts: map<string, int>, missed: set<nat>)

  datatype System = System(
    db: Db, peers: map<int, Peer>, mutex: Mutex, handlers: seq<Handler>,
    clock: nat, nextConn: nat, past: History)

  const EMPTY := Db(map[], 1, {}, map[], {}, map[], 1, None, map[])

  const INIT := System(EMPTY, map[], Free, [], 0, 0, History({}, map[], map[], map[], {}))

  datatype AdmitStep =
    | Lock(secret: string, hostname: string)
    | ReadSettings
    | RegisterKey
    | FindRow(row: Option<int>)
    | CheckToken
    | ReadToken
    | ClaimToken
    | Insert
    | GiveUp
    | Abort
    | Teardown(id: int, conn: nat)

  datatype HandlerStep =
    | StartRotate(id: int)
    | WriteRotate(h: nat, secret: string)
    | StartRevoke(token: Hash)
    | StartUpsert(request: RouteRequest)
    | StartToggle(name: string, id: int, enabled: bool)
    | ReadToggled(h: nat, row: Option<int>)
    | StartDelete(name: string, row: Option<int>)
    | WriteDelete(h: nat, row: Option<int>)
    | Disconnect(h: nat)
    | StartEnrollment(secret: string, credentials: set<int>)
    | EditCredentials(change: CredentialChange)

  datatype SettingsStep =
    | Save(address: string, secret: string, token: Cell)
    | SaveAddressOnly(address: string, token: Cell)
    | Disable
    | Reset(rows: Option<set<int>>)   // the rows read, or a query that failed

  datatype Step = Admit(admit: AdmitStep) | Handle(handle: HandlerStep) | Configure(configure: SettingsStep)

  // What reading a route by login name yields: the route, or nothing because there is
  // none or because the read failed.
  ghost predicate RowRead(db: Db, name: string, row: Option<int>) {
    row.Some? ==> Named(db.servers, name, row.value)
  }

  // The row a DELETE by login name finds.
  ghost predicate RowNamed(db: Db, name: string, row: Option<int>) {
    match row
    case Some(id) => Named(db.servers, name, id)
    case None => forall id :: !Named(db.servers, name, id)
  }

  predicate Current(db: Db, key: Hash) {
    db.settings.Some? && db.settings.value.enabled && db.settings.value.hash == key
  }

  // ---- admission ----

  predicate AtStage(s: System, stage: Stage) {
    s.mutex.Admitting? && s.mutex.a.stage == stage
  }

  ghost predicate AdmitEnabled(s: System, step: AdmitStep) {
    match step
    case Lock(_, _) => s.mutex.Free?
    case ReadSettings => AtStage(s, Begin)
    case RegisterKey => AtStage(s, SharedKey)
    case FindRow(row) =>
      AtStage(s, DeviceKey) &&
      (match row
       case Some(id) => IsDeviceRow(s.db, s.mutex.a.presented, id)
       case None => forall id :: !IsDeviceRow(s.db, s.mutex.a.presented, id))
    case CheckToken => s.mutex.Admitting? && s.mutex.a.stage.Matched?
    case ReadToken => AtStage(s, Unmatched)
    case ClaimToken => AtStage(s, Claiming)
    case Insert => s.mutex.Admitting? && s.mutex.a.stage.Resolved?
    case GiveUp => AtStage(s, Failed)
    case Abort => s.mutex.Admitting?
    case Teardown(_, _) => s.mutex.Free?
  }

  function WithStage(s: System, stage: Stage): System
    requires s.mutex.Admitting?
  {
    s.(mutex := Admitting(s.mutex.a.(stage := stage)))
  }

  function AfterSettings(db: Db, a: Admission): Stage {
    if !(db.settings.Some? && db.settings.value.hash == a.presented) then DeviceKey
    else if db.settings.value.enabled && ValidHostname(a.hostname) then SharedKey
    else Failed
  }

  function AfterFind(db: Db, row: Option<int>): Stage
    requires row.Some? ==> row.value in db.servers
  {
    match row
    case Some(id) => if db.servers[id].enabled then Matched(id) else Failed
    case None => Unmatched
  }

  // Teardown of a connection removes the map entry only if it is its own.
  function Unmap(peers: map<int, Peer>, id: int, conn: nat): map<int, Peer> {
    if id in peers && peers[id].conn == conn then peers - {id} else peers
  }

  ghost function AdmitApply(s: System, step: AdmitStep): System
    requires AdmitEnabled(s, step)
  {
    match step
    case Lock(secret, hostname) =>
      s.(mutex := Admitting(Admission(s.nextConn, OfSecret(secret), hostname, s.clock, Begin)), nextConn := s.nextConn + 1)
    case ReadSettings => WithStage(s, AfterSettings(s.db, s.mutex.a))
    case RegisterKey =>
      (match RegisterShared(s.db, s.mutex.a.presented, s.mutex.a.hostname)
       case Err(_) => WithStage(s, Failed)
       case Ok(r) =>
         var f := Fold(s.mutex.a.hostname);
         WithStage(s, Resolved(r.id, PeerHash(s.mutex.a.presented, s.mutex.a.hostname)))
           .(db := r.db, past := s.past.(firsts := if f in s.past.firsts then s.past.firsts else s.past.firsts[f := r.id])))
    case FindRow(row) => WithStage(s, AfterFind(s.db, row))
    case CheckToken =>
      WithStage(s, if EnrollmentAgrees(s.db, s.mutex.a.presented, s.mutex.a.hostname)
                   then Resolved(s.mutex.a.stage.id, s.mutex.a.presented) else Failed)
    case ReadToken =>
      WithStage(s, if ValidHostname(s.mutex.a.hostname) && Claimable(s.db, s.mutex.a.presented) then Claiming else Failed)
    case ClaimToken =>
      (match ClaimEnrollment(s.db, s.mutex.a.presented, s.mutex.a.hostname)
       case Err(_) => WithStage(s, Failed)
       case Ok(r) =>
         var h := s.mutex.a.presented;
         var before := if h in s.past.claims then s.past.claims[h] else [];
         WithStage(s, Resolved(r.id, h)).(db := r.db, past := s.past.(claims := s.past.claims[h := before + [r.id]])))
    case Insert =>
      var a := s.mutex.a;
      if a.stage.id in s.peers then WithStage(s, Failed)
      else s.(mutex := Free, peers := s.peers[a.stage.id := Peer(a.conn, a.stage.hash, a.presented, a.since)])
    case GiveUp => s.(mutex := Free)
    case Abort => WithStage(s, Failed)
    case Teardown(id, conn) => s.(peers := Unmap(s.peers, id, conn))
  }

  // ---- handlers that write and then disconnect ----

  predicate IsHandler(s: System, h: nat) { h < |s.handlers| }

  ghost predicate HandlerEnabled(s: System, step: HandlerStep) {
    match step
    case StartRotate(id) => id in s.db.servers && s.db.servers[id].kind == AgentServer
    case WriteRotate(h, secret) =>
      IsHandler(s, h) && s.handlers[h].Rotating? && secret !in s.past.device && secret !in s.past.shared
    case StartRevoke(_) => true
    case StartUpsert(request) => Validate(request).Ok?
    case StartToggle(name, id, _) => Named(s.db.servers, name, id)
    case ReadToggled(h, row) => IsHandler(s, h) && s.handlers[h].Toggled? && RowRead(s.db, s.handlers[h].name, row)
    case StartDelete(name, row) => RowRead(s.db, name, row)
    case WriteDelete(h, row) => IsHandler(s, h) && s.handlers[h].Deleting? && RowNamed(s.db, s.handlers[h].name, row)
    case Disconnect(h) => IsHandler(s, h) && s.handlers[h].Disconnecting? && s.mutex.Free?
    case StartEnrollment(secret, credentials) =>
      secret !in s.past.device && secret !in s.past.shared && credentials != {} && credentials <= s.db.clientCredentials.Keys
    case EditCredentials(change) => forall p | p in change.links :: p.0 in s.db.servers && p.1 in change.clients
  }

  function Begun(s: System, h: Handler): System {
    s.(handlers := s.handlers + [h])
  }

  function Moved(s: System, i: nat, h: Handler): System
    requires IsHandler(s, i)
  {
    s.(handlers := s.handlers[i := h])
  }

  // handleSetServerEnabled reads the route again and disconnects it if it is disabled now.
  function AfterToggle(db: Db, row: Option<int>, wrote: nat): Handler
    requires row.Some? ==> row.value in db.servers
  {
    if row.Some? && !db.servers[row.value].enabled then Disconnecting(row.value, wrote) else Done
  }

  ghost function HandlerApply(s: System, step: HandlerStep): System
    requires HandlerEnabled(s, step)
  {
    match step
    case StartRotate(id) => Begun(s, Rotating(id))
    case WriteRotate(h, secret) =>
      var id := s.handlers[h].id;
      Moved(s, h, Disconnecting(id, s.clock))
        .(db := SetHash(s.db, id, OfSecret(secret)), past := s.past.(device := s.past.device + {secret}))
    case StartRevoke(token) =>
      (match Revoke(s.db, token)
       case Err(_) => Begun(s, Done)
       case Ok(r) => Begun(s, if r.cleared.Some? then Disconnecting(r.cleared.value, s.clock) else Done).(db := r.db))
    case StartUpsert(request) =>
      (match Upsert(s.db, Validate(request).value)
       case Err(_) => Begun(s, Done)
       case Ok(db) => Begun(s, Disconnecting(request.id, s.clock)).(db := db))
    case StartToggle(name, id, enabled) =>
      Begun(s, Toggled(name, id, s.clock)).(db := SetEnabled(s.db, id, enabled))
    case ReadToggled(h, row) => Moved(s, h, AfterToggle(s.db, row, s.handlers[h].wrote))
    case StartDelete(name, row) => Begun(s, Deleting(name, row))
    case WriteDelete(h, row) =>
      var previous := s.handlers[h].previous;
      Moved(s, h, if previous.Some? then Disconnecting(previous.value, s.clock) else Done)
        .(db := if row.Some? then DeleteServer(s.db, row.value) else s.db)
    case Disconnect(h) =>
      Moved(s, h, Returned(s.handlers[h].id, s.handlers[h].wrote)).(peers := s.peers - {s.handlers[h].id})
    case StartEnrollment(secret, credentials) =>
      var e := Enrollment(s.db.nextEnrollment, true, false, "", None, credentials);
      Begun(s, Done).(
        db := s.db.(enrollments := s.db.enrollments[OfSecret(secret) := e], nextEnrollment := s.db.nextEnrollment + 1),
        past := s.past.(device := s.past.device + {secret}))
    case EditCredentials(change) => Begun(s, Done).(db := ChangeCredentials(s.db, change))
  }

  // ---- handlers that hold the mutex ----

  ghost predicate SettingsEnabled(s: System, step: SettingsStep) {
    match step
    case Save(_, _, _) => s.mutex.Free?
    case SaveAddressOnly(_, _) => s.mutex.Free?
    case Disable => s.mutex.Free?
    case Reset(rows) => s.mutex.Resetting? && (rows.Some? ==> rows.value <= LinkedServers(s.db))
  }

  // A registered peer that was admitted under a key which is not the stored, enabled one.
  predicate Stale(db: Db, peers: map<int, Peer>, id: int) {
    id in peers && peers[id].hash.OfHost? && id in LinkedServers(db) && !Current(db, peers[id].presented)
  }

  // disconnectRegisteredLocked. The loop over rows ends early on an error, so that
  // only the rows read until then are disconnected.
  function AfterReset(peers: map<int, Peer>, rows: Option<set<int>>): map<int, Peer> {
    if rows.Some? then peers - rows.value else map[]
  }

  function StaleConns(db: Db, peers: map<int, Peer>): set<nat> {
    set id | id in peers && Stale(db, peers, id) :: peers[id].conn
  }

  function StoredHash(db: Db): Hash {
    if db.settings.Some? then db.settings.value.hash else NoHash
  }

  function SettingsApply(s: System, step: SettingsStep): System {
    match step
    case Save(address, secret, token) =>
      s.(db := SaveSettings(s.db, address, OfSecret(secret), token),
         mutex := if StoredHash(s.db) == OfSecret(secret) then Free else Resetting,
         past := s.past.(shared := s.past.shared[secret := s.clock]))
    case SaveAddressOnly(address, token) => s.(db := SaveAddress(s.db, address, token))
    case Disable => s.(db := DisableSettings(s.db), mutex := Resetting)
    case Reset(rows) =>
      var peers := AfterReset(s.peers, rows);
      s.(mutex := Free, peers := peers, past := s.past.(missed := s.past.missed + StaleConns(s.db, peers)))
  }

  ghost predicate Enabled(s: System, step: Step) {
    match step
    case Admit(a) => AdmitEnabled(s, a)
    case Handle(h) => HandlerEnabled(s, h)
    case Configure(c) => SettingsEnabled(s, c)
  }

  ghost function Apply(s: System, step: Step): System
    requires Enabled(s, step)
  {
    var s' := match step
      case Admit(a) => AdmitApply(s, a)
      case Handle(h) => HandlerApply(s, h)
      case Configure(c) => SettingsApply(s, c);
    s'.(clock := s.clock + 1)
  }

  ghost predicate Reaches(s: System, s': System) {
    exists step :: Enabled(s, step) && s' == Apply(s, step)
  }

  ghost predicate IsPath(path: seq<System>) {
    path != [] && forall i | 0 < i < |path| :: StepAt(path, i)
  }

  // World i follows from the one before it.
  ghost predicate StepAt(path: seq<System>, i: nat)
    requires 0 < i < |path|
  {
    Reaches(path[i - 1], path[i])
  }

  lemma PathStep(path: seq<System>, i: nat)
    requires IsPath(path) && 0 < i < |path|
    ensures Reaches(path[i - 1], path[i])
  {
    assert StepAt(path, i);
  }

  ghost predicate IsRun(trace: seq<System>) {
    IsPath(trace) && trace[0] == INIT
  }
}
