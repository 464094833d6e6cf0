/** The hub object and the handlers that use it (agent.go, self_registration.go,
    enrollment.go, api.go). Each method is proved to take the steps of a run of
    AgentIdentity, so whatever holds along every run holds for the objects. The
    methods here run without interference; the interleavings are the runs'. */
module AgentHubs {
  import opened Wrappers
  import opened Decimal
  import opened Tables
  import opened EnrollmentTokens
  import opened Secrets
  import opened SelfRegistration
  import opened Registration
  import opened Routing
  import opened Stores
  import opened AgentIdentity
  import opened IdentityRuns
  import IdentitySafety

  // What an agentPeer keeps; connections are numbered as they are opened.
  datatype Connected = Connected(conn: nat, hash: Hash)

  function Seen(peers: map<int, Peer>): map<int, Connected> {
    map id | id in peers :: Connected(peers[id].conn, peers[id].hash)
  }

  lemma SeenWithout(peers: map<int, Peer>, ids: set<int>)
    ensures Seen(peers - ids) == Seen(peers) - ids
  {
  }

  // Resolving an agent keeps the route table well formed.
  lemma ResolvingKeepsRoutes(before: Db, after: Db, hash: Hash, hostname: string, r: Result<(int, Hash)>)
    requires RouteTableOk(before.servers) && before.nextServer !in before.servers
    requires AgentResolved(before, after, hash, hostname, true, r)
    ensures RouteTableOk(after.servers)
  {
    if !HoldsKey(before, hash) && after != before {
      LeastFreeIsLeast(before.servers, hostname, 1);
    }
  }

  lemma NextKeyIsFree(trace: seq<System>)
    requires IsRun(trace)
    ensures Last(trace).db.nextServer !in Last(trace).db.servers && 0 !in Last(trace).db.servers
  {
    IdentitySafety.RunKeeps(trace, |trace| - 1);
  }

  // A secret that was never issued is no token's.
  lemma SecretIsFresh(trace: seq<System>, secret: string)
    requires IsRun(trace) && secret !in Last(trace).past.device
    ensures OfSecret(secret) !in Last(trace).db.enrollments
  {
    IdentitySafety.RunKeeps(trace, |trace| - 1);
    var s := Last(trace);
    assert OfSecret(secret) in s.db.enrollments ==> IdentitySafety.TokenOk(s.db, s.past, OfSecret(secret));
  }

  // The outcome of the locked part: the route a token resolves to gets this
  // connection as its peer, unless it has one.
  ghost predicate ConnectedAs(
    before: Db, after: Db, peers: map<int, Connected>, peers': map<int, Connected>, conn: nat,
    secret: string, hostname: string, mapped: Option<int>)
  {
    exists r :: && AgentResolved(before, after, OfSecret(secret), hostname, true, r)
                && mapped == (if r.Ok? && r.value.0 !in peers then Some(r.value.0) else None)
                && peers' == if mapped.Some? then peers[r.value.0 := Connected(conn, r.value.1)] else peers
  }

  // The checks before the upgrade, given what the token resolves to at that time.
  predicate Passes(bearer: bool, token: string, number: string, browser: bool, upgraded: bool, r: Result<(int, Hash)>) {
    && bearer && |token| == 64 && r.Ok? && !browser && upgraded
    && (number != "" ==> r.value.0 != 0 && Atoi(number) == Some(r.value.0))
  }

  // The credentials inserted for a token: each listed one once, if all exist.
  method Granted(credentials: seq<int>, keys: set<int>) returns (granted: Option<set<int>>)
    ensures granted == if Elements(credentials) <= keys then Some(Elements(credentials)) else None
  {
    var seen: set<int> := {};
    for i := 0 to |credentials|
      invariant seen == Elements(credentials[..i]) <= keys
    {
      ElementsSnoc(credentials, i);
      if credentials[i] !in seen {
        if credentials[i] !in keys {
          assert credentials[i] in Elements(credentials);
          return None;
        }
        seen := seen + {credentials[i]};
      }
    }
    ElementsWhole(credentials);
    return Some(seen);
  }

  /** AgentHub. */
  class AgentHub {
    const store: Store
    var peers: map<int, Connected>
    var connections: nat             // opened so far
    ghost var trace: seq<System>

    // The objects are the last world of a run in which nobody holds the mutex.
    ghost predicate Valid()
      reads this, store
    {
      && IsRun(trace) && Last(trace).mutex.Free?
      && Last(trace).db == store.db && Last(trace).nextConn == connections
      && Seen(Last(trace).peers) == peers
      && RouteTableOk(store.db.servers)
    }

    // A hub over a store in which only credentials have been set up.
    constructor (clients: map<int, ClientCredential>, servers: set<int>)
      ensures Valid() && fresh(store) && peers == map[]
      ensures store.db == EMPTY.(clientCredentials := clients, serverCredentials := servers)
    {
      ghost var change := CredentialChange(clients, servers, map[], {});
      ghost var next := HandlerGo([INIT], EditCredentials(change));
      store := new Store(EMPTY.(clientCredentials := clients, serverCredentials := servers));
      peers, connections := map[], 0;
      trace := next;
    }

    method Disconnect(id: int)
      modifies this`peers
      ensures peers == old(peers) - {id}
    {
      if id in peers {
        peers := peers - {id};
      }
    }

    /** The locked part of ServeHTTP: resolve, then map the connection unless its
        route already has one. */
    method Connect(secret: string, hostname: string) returns (mapped: Option<int>)
      requires Valid()
      modifies this, store
      ensures Valid() && Continues(old(trace), trace)
      ensures ConnectedAs(old(store.db), store.db, old(peers), peers, old(connections), secret, hostname, mapped)
    {
      NextKeyIsFree(trace);
      var r := store.ResolveAgent(OfSecret(secret), hostname, true);
      ResolvingKeepsRoutes(old(store.db), store.db, OfSecret(secret), hostname, r);
      ghost var next := AdmissionIsRun(trace, secret, hostname, store.db, r);
      trace := next;
      connections := connections + 1;
      if r.Err? || r.value.0 in peers {
        return None;
      }
      peers := peers[r.value.0 := Connected(connections - 1, r.value.1)];
      return Some(r.value.0);
    }

    /** ServeHTTP up to the frame loop: the checks before the upgrade change nothing,
        and only a request that passes all of them reaches the locked part. A route
        number is an older client's claim about which route its token has. */
    method Serve(bearer: bool, token: string, hostname: string, number: string, browser: bool, upgraded: bool)
      returns (mapped: Option<int>)
      requires Valid()
      modifies this, store
      ensures Valid() && Continues(old(trace), trace)
      ensures exists r :: AgentResolved(old(store.db), old(store.db), OfSecret(token), hostname, false, r)
                && if Passes(bearer, token, number, browser, upgraded, r)
                   then ConnectedAs(old(store.db), store.db, old(peers), peers, old(connections), token, hostname, mapped)
                   else mapped == None && store.db == old(store.db) && peers == old(peers)
    {
      var r := store.ResolveAgent(OfSecret(token), hostname, false);
      assert store.db == old(store.db);
      if !bearer || |token| != 64 || r.Err? {
        return None;
      }
      if number != "" {
        var parsed := Atoi(number);
        if parsed.None? || parsed.value != r.value.0 || r.value.0 == 0 {
          return None;
        }
      }
      if browser || !upgraded {
        return None;
      }
      mapped := Connect(token, hostname);
    }

    /** The deferred end of a connection unmaps that connection and no other. */
    method Teardown(id: int, conn: nat)
      requires Valid()
      modifies this
      ensures Valid() && Continues(old(trace), trace) && store.db == old(store.db)
      ensures peers == if id in old(peers) && old(peers)[id].conn == conn then old(peers) - {id} else old(peers)
    {
      ghost var next := Go(trace, AdmitStep.Teardown(id, conn));
      SeenWithout(Last(trace).peers, {id});
      trace := next;
      if id in peers && peers[id].conn == conn {
        peers := peers - {id};
      }
    }

    /** handleRotateAgentToken: a new device secret, then the route's peer goes. */
    method HandleRotate(name: string, secret: string) returns (ok: bool)
      requires Valid() && secret !in Last(trace).past.device && secret !in Last(trace).past.shared
      modifies this, store
      ensures Valid() && Continues(old(trace), trace)
      ensures ok <==> exists id :: Named(old(store.db).servers, name, id) && old(store.db).servers[id].kind == AgentServer
      ensures !ok ==> store.db == old(store.db) && peers == old(peers)
      ensures ok ==> exists id :: Named(old(store.db).servers, name, id)
                       && store.db == old(store.db).(servers := old(store.db).servers[
                            id := old(store.db).servers[id].(hash := OfSecret(secret))])
                       && peers == old(peers) - {id}
    {
      var row := FindNamed(store.db.servers, name);
      if row.None? || store.db.servers[row.value].kind != AgentServer {
        return false;
      }
      var id := row.value;
      ghost var s := Last(trace);
      ghost var next := HandlerGo(trace, StartRotate(id));
      next := HandlerGo(next, WriteRotate(|s.handlers|, secret));
      next := DisconnectLast(next);
      SeenWithout(s.peers, {id});
      store.db := SetHash(store.db, id, OfSecret(secret));
      Disconnect(id);
      trace := next;
      return true;
    }

    /** handleRevokeEnrollment: the token stops working; if its route still held its
        hash, that route has no hash any more and its peer goes. */
    method HandleRevoke(number: int) returns (ok: bool)
      requires Valid()
      modifies this, store
      ensures Valid() && Continues(old(trace), trace)
      ensures ok <==> exists h :: h in old(store.db).enrollments && old(store.db).enrollments[h].id == number
      ensures !ok ==> store.db == old(store.db) && peers == old(peers)
      ensures ok ==> exists h :: h in old(store.db).enrollments && old(store.db).enrollments[h].id == number
                       && var r := Revoke(old(store.db), h).value;
                          store.db == r.db && peers == if r.cleared.Some? then old(peers) - {r.cleared.value} else old(peers)
    {
      if !exists h | h in store.db.enrollments :: store.db.enrollments[h].id == number {
        return false;
      }
      var h :| h in store.db.enrollments && store.db.enrollments[h].id == number;
      ghost var r := Revoke(store.db, h).value;
      ghost var next := HandlerGo(trace, StartRevoke(h));
      if r.cleared.Some? {
        SeenWithout(Last(trace).peers, {r.cleared.value});
        next := DisconnectLast(next);
      }
      var tx := store.db;
      var e := tx.enrollments[h];
      tx := tx.(enrollments := tx.enrollments[h := e.(enabled := false)]);
      var cleared := e.server.Some? && e.server.value in tx.servers && tx.servers[e.server.value].hash == h;
      if cleared {
        tx := tx.(servers := tx.servers[e.server.value := tx.servers[e.server.value].(hash := NoHash)]);
      }
      store.db := tx;
      if cleared {
        Disconnect(e.server.value);
      }
      trace := next;
      return true;
    }

    /** handleUpsertServer: validate, save, disconnect the saved route. */
    method HandleUpsert(q: RouteRequest) returns (ok: bool)
      requires Valid()
      modifies this, store
      ensures Valid() && Continues(old(trace), trace)
      ensures ok <==> && Acceptable(q) && Savable(old(store.db), q)
                      && CredentialExists(SavedRow(q, true, NoHash), old(store.db).serverCredentials)
      ensures !ok ==> store.db == old(store.db) && peers == old(peers)
      ensures ok ==> store.db == Saved(old(store.db), q) && peers == old(peers) - {q.id}
    {
      AcceptedIff(q);
      var valid := Validate(q);
      if valid.Err? {
        return false;
      }
      AcceptedRowIs(q, true, NoHash);
      SavedIs(store.db, q);
      if valid.value.credential.Some? && valid.value.credential.value !in store.db.serverCredentials {
        return false;
      }
      NextKeyIsFree(trace);
      ok := store.UpsertServer(valid.value);
      if ok {
        ghost var next := HandlerGo(trace, StartUpsert(q));
        next := DisconnectLast(next);
        SeenWithout(Last(trace).peers, {q.id});
        UpsertKeepsRoutes(old(store.db), q);
        Disconnect(q.id);
        trace := next;
      }
    }

    /** handleSetServerEnabled: write, read again, disconnect if it is disabled. */
    method HandleSetEnabled(name: string, enabled: bool) returns (ok: bool)
      requires Valid()
      modifies this, store
      ensures Valid() && Continues(old(trace), trace)
      ensures ok <==> exists id :: Named(old(store.db).servers, name, id)
      ensures !ok ==> store.db == old(store.db) && peers == old(peers)
      ensures forall id | Named(old(store.db).servers, name, id) ::
                && store.db == old(store.db).(servers := old(store.db).servers[
                     id := old(store.db).servers[id].(enabled := enabled)])
                && peers == if enabled then old(peers) else old(peers) - {id}
    {
      ok := store.SetServerEnabled(name, enabled);
      if !ok {
        return;
      }
      var row := FindNamed(store.db.servers, name);
      ghost var id :| Named(old(store.db).servers, name, id);
      assert Named(store.db.servers, name, id);
      ghost var next := HandlerGo(trace, StartToggle(name, id, enabled));
      next := HandlerGo(next, ReadToggled(|Last(trace).handlers|, Some(id)));
      if !store.db.servers[row.value].enabled {
        next := DisconnectLast(next);
        SeenWithout(Last(trace).peers, {id});
        Disconnect(row.value);
      }
      trace := next;
    }

    /** handleDeleteServer: read, delete, disconnect what was read. */
    method HandleDelete(name: string)
      requires Valid()
      modifies this, store
      ensures Valid() && Continues(old(trace), trace)
      ensures (forall id :: !Named(old(store.db).servers, name, id)) ==> store.db == old(store.db) && peers == old(peers)
      ensures forall id | Named(old(store.db).servers, name, id) ::
                && store.db == DeleteServer(old(store.db), id) && peers == old(peers) - {id}
                && RouteDeleted(old(store.db), store.db, id)
    {
      var previous := FindNamed(store.db.servers, name);
      store.DeleteNamed(name);
      ghost var next := HandlerGo(trace, StartDelete(name, previous));
      next := HandlerGo(next, WriteDelete(|Last(trace).handlers|, previous));
      if previous.Some? {
        DeletionIs(old(store.db), previous.value);
        next := DisconnectLast(next);
        SeenWithout(Last(trace).peers, {previous.value});
        Disconnect(previous.value);
      }
      trace := next;
    }

    /** handleCreateEnrollment: a new token for the given credentials, which reads
        back as the address and secret it was made from. */
    method HandleCreateEnrollment(caption: Text, url: Text, credentials: seq<int>, secret: Text) returns (token: Option<Text>)
      requires Valid() && IsSecret(secret)
      requires secret !in Last(trace).past.device && secret !in Last(trace).past.shared
      modifies this, store
      ensures Valid() && Continues(old(trace), trace) && peers == old(peers)
      ensures token.Some? <==> && ValidServerURL(url) && |caption| <= 120 && 0 < |credentials| <= 64
                               && Elements(credentials) <= old(store.db).clientCredentials.Keys
      ensures token.None? ==> store.db == old(store.db)
      ensures token.Some? ==>
                && ParseEnrollmentToken(token.value) == Some(Enrolled(url, secret))
                && OfSecret(secret) !in old(store.db).enrollments
                && store.db == old(store.db).(
                     enrollments := old(store.db).enrollments[OfSecret(secret) :=
                       Enrollment(old(store.db).nextEnrollment, true, false, "", None, Elements(credentials))],
                     nextEnrollment := old(store.db).nextEnrollment + 1)
    {
      if !ValidServerURL(url) || |caption| > 120 || |credentials| == 0 || |credentials| > 64 {
        return None;
      }
      var granted := Granted(credentials, store.db.clientCredentials.Keys);
      if granted.None? {
        return None;
      }
      var e := Enrollment(store.db.nextEnrollment, true, false, "", None, granted.value);
      assert credentials[0] in Elements(credentials);
      SecretIsFresh(trace, secret);
      ghost var next := HandlerGo(trace, StartEnrollment(secret, e.credentials));
      store.db := store.db.(enrollments := store.db.enrollments[OfSecret(secret) := e], nextEnrollment := e.id + 1);
      trace := next;
      TokenRoundTrip(url, secret);
      return Some(EnrollmentToken(url, secret));
    }

    // ---- shared registration ----

    /** disconnectRegisteredLocked: every peer whose row is read goes; if the query
        fails, every peer goes. `rows` is what is read before the end or an error. */
    method DisconnectRegistered(rows: Option<seq<int>>)
      requires rows.Some? ==> Elements(rows.value) <= LinkedServers(store.db)
      modifies this`peers
      ensures peers == if rows.Some? then old(peers) - Elements(rows.value) else map[]
    {
      if rows.None? {
        peers := map[];
        return;
      }
      ElementsWhole(rows.value);
      for i := 0 to |rows.value|
        invariant peers == old(peers) - Elements(rows.value[..i])
      {
        ElementsSnoc(rows.value, i);
        if rows.value[i] in peers {
          peers := peers - {rows.value[i]};
        }
      }
    }

    /** handlePutSelfRegistration: saves and enables a key; unless it is the stored
        one, every registered peer goes. */
    method HandlePut(supplied: Option<Text>, url: Text, random: Text, nonce: nat, rows: Option<seq<int>>) returns (ok: bool)
      requires Valid() && IsSecret(random)
      requires rows.Some? ==> Elements(rows.value) <= LinkedServers(store.db)
      modifies this, store
      ensures Valid() && Continues(old(trace), trace)
      ensures store.db == old(store.db).(settings := Put(old(store.db).settings, supplied, url, random, nonce))
      ensures ok <==> && AgentServerURL(url).Some?
                      && (supplied.Some? ==> NamesAddress(supplied.value, AgentServerURL(url).value))
      ensures ok ==> && store.db.settings.Some? && store.db.settings.value.enabled
                     && store.db.settings.value.address == AgentServerURL(url).value
                     && store.db.settings.value.hash == OfSecret(SecretToSave(supplied, random))
                     && StoredToken(store.db.settings.value)
                        == (if supplied.Some? then supplied else Some(EnrollmentToken(AgentServerURL(url).value, random)))
      ensures !ok ==> store.db == old(store.db)
      ensures peers == if !ok || (old(store.db).settings.Some? && old(store.db).settings.value.hash == store.db.settings.value.hash)
                       then old(peers)
                       else if rows.Some? then old(peers) - Elements(rows.value) else map[]
      ensures ok ==> (SettingsReadable(store.db.settings) <==>
                        supplied.Some? || |store.db.settings.value.address| <= MAX_ADDRESS)
    {
      var draft := DraftOf(supplied, url, random);
      if draft.None? {
        return false;
      }
      PutIsReadableIff(store.db.settings, supplied, url, random, nonce);
      PutStoresTheToken(store.db.settings, supplied, url, random, nonce);
      var d := draft.value;
      var hash, cell := OfSecret(d.secret), Encrypt(d.token, nonce);
      var previous := StoredHash(store.db);
      ghost var next := SettingsGo(trace, Save(d.address, d.secret, cell));
      store.db := SaveSettings(store.db, d.address, hash, cell);
      if previous != hash {
        next := SettingsGo(next, Reset(if rows.Some? then Some(Elements(rows.value)) else None));
        SeenWithout(Last(trace).peers, if rows.Some? then Elements(rows.value) else {});
        DisconnectRegistered(rows);
      }
      trace := next;
      return true;
    }

    /** handleSaveRegistrationAddress: peers, hash, secret and flag stay. */
    method HandleSaveAddress(url: Text, nonce: nat) returns (ok: bool)
      requires Valid()
      modifies this, store
      ensures Valid() && Continues(old(trace), trace) && peers == old(peers)
      ensures ok <==> AgentServerURL(url).Some? && MovedToken(old(store.db).settings, AgentServerURL(url).value).Some?
      ensures store.db == old(store.db).(settings := Move(old(store.db).settings, url, nonce))
    {
      var address := AgentServerURL(url);
      if address.None? {
        return false;
      }
      var token := MovedToken(store.db.settings, address.value);
      if token.None? {
        return false;
      }
      ghost var next := SettingsGo(trace, SaveAddressOnly(address.value, Encrypt(token.value, nonce)));
      store.db := SaveAddress(store.db, address.value, Encrypt(token.value, nonce));
      trace := next;
      return true;
    }

    /** handleDisableSelfRegistration: no shared key is accepted any more, and every
        registered peer whose row is read is gone. */
    method HandleDisable(rows: Option<seq<int>>)
      requires Valid()
      requires rows.Some? ==> Elements(rows.value) <= LinkedServers(store.db)
      modifies this, store
      ensures Valid() && Continues(old(trace), trace)
      ensures store.db == old(store.db).(settings := Off(old(store.db).settings))
      ensures forall key, hostname :: RegisterShared(store.db, key, hostname).Err?
      ensures peers == if rows.Some? then old(peers) - Elements(rows.value) else map[]
    {
      ghost var next := SettingsGo(trace, Disable);
      store.db := DisableSettings(store.db);
      next := SettingsGo(next, Reset(if rows.Some? then Some(Elements(rows.value)) else None));
      SeenWithout(Last(trace).peers, if rows.Some? then Elements(rows.value) else {});
      DisconnectRegistered(rows);
      trace := next;
    }
  }

  /** Over the whole life of a hub, every mapped peer that a shared key admitted and
      that is still linked to a host name runs on the key stored and enabled now,
      unless a reset broke off before it read that peer's row. */
  lemma MappedPeersAreCurrent(hub: AgentHub, id: int)
    requires hub.Valid() && id in hub.peers && hub.peers[id].hash.OfHost?
    requires exists f :: f in hub.store.db.hosts && hub.store.db.hosts[f] == Some(id)
    requires hub.peers[id].conn !in Last(hub.trace).past.missed
    ensures Current(hub.store.db, hub.peers[id].hash.key)
  {
    IdentitySafety.RunKeeps(hub.trace, |hub.trace| - 1);
  }

  /** A secret that was ever saved as the shared key, and was never a device's,
      resolves, by any path and for any host name, exactly when it is the stored and enabled key and that host
      name can be registered under it. */
  lemma SharedSecretResolvesIff(hub: AgentHub, secret: string, hostname: string, after: Db, r: Result<(int, Hash)>)
    requires hub.Valid() && secret in Last(hub.trace).past.shared && secret !in Last(hub.trace).past.device
    requires AgentResolved(hub.store.db, after, OfSecret(secret), hostname, true, r)
    ensures r.Ok? <==> && Current(hub.store.db, OfSecret(secret)) && ValidHostname(hostname)
                       && RegisterShared(hub.store.db, OfSecret(secret), hostname).Ok?
  {
    var s := Last(hub.trace);
    IdentitySafety.RunKeeps(hub.trace, |hub.trace| - 1);
    assert OfSecret(secret) in s.db.enrollments ==> IdentitySafety.TokenOk(s.db, s.past, OfSecret(secret));
  }
}
