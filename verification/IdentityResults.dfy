/** What holds in every world of every run of agent identity. */
module IdentityResults {
  import opened Wrappers
  import opened Tables
  import opened EnrollmentTokens
  import opened Registration
  import opened Routing
  import opened AgentIdentity
  import opened IdentitySafety
  import opened Stores
  import opened IdentityRuns

  // ---- shared keys ----

  /** Whenever no settings handler is part-way through, each mapped peer that a
      shared key admitted and that is still linked to a host name was admitted under
      the key that is stored and enabled now, unless a reset broke off before it
      read that peer's row. */
  lemma RegisteredPeersAreCurrent(trace: seq<System>, i: nat, id: int)
    requires IsRun(trace) && i < |trace| && !trace[i].mutex.Resetting?
    requires id in trace[i].peers && trace[i].peers[id].hash.OfHost?
    requires exists f :: f in trace[i].db.hosts && trace[i].db.hosts[f] == Some(id)
    requires trace[i].peers[id].conn !in trace[i].past.missed
    ensures Current(trace[i].db, trace[i].peers[id].presented)
    ensures trace[i].peers[id].hash.key == trace[i].peers[id].presented
  {
    RunKeeps(trace, i);
    assert !Stale(trace[i].db, trace[i].peers, id);
  }

  ghost predicate IsReset(s: System, rows: set<int>, s': System) {
    SettingsEnabled(s, Reset(Some(rows))) && s' == Apply(s, Configure(Reset(Some(rows))))
  }

  predicate NoneStale(s: System) {
    forall id | id in s.peers :: !Stale(s.db, s.peers, id)
  }

  predicate ReadsEveryStale(s: System, rows: set<int>) {
    forall id | id in s.peers && Stale(s.db, s.peers, id) :: id in rows
  }

  // If this step is a query that did not fail as a whole, it read every stale row.
  ghost predicate FullRead(s: System, s': System) {
    forall rows | IsReset(s, rows, s') :: ReadsEveryStale(s, rows)
  }

  ghost predicate FullReads(trace: seq<System>) {
    forall i | 0 < i < |trace| :: FullReadAt(trace, i)
  }

  ghost predicate FullReadAt(trace: seq<System>, i: nat)
    requires 0 < i < |trace|
  {
    FullRead(trace[i - 1], trace[i])
  }

  lemma ResetMisses(s: System, rows: set<int>, s': System)
    requires IsReset(s, rows, s')
    ensures !s'.mutex.Resetting?
    ensures NoneStale(s') <==> ReadsEveryStale(s, rows)
    ensures NoneStale(s') ==> s'.past.missed == s.past.missed
  {
    assert s'.db == s.db && s'.peers == s.peers - rows;
    forall id | id in s.peers && id !in rows ensures Stale(s'.db, s'.peers, id) <==> Stale(s.db, s.peers, id) {
    }
  }

  lemma AdmissionsMissNone(s: System, step: AdmitStep)
    requires AdmitEnabled(s, step)
    ensures AdmitApply(s, step).past.missed == s.past.missed
  {
  }

  lemma HandlersMissNone(s: System, step: HandlerStep)
    requires HandlerEnabled(s, step)
    ensures HandlerApply(s, step).past.missed == s.past.missed
  {
  }

  lemma ResetTells(s: System, step: SettingsStep, s': System)
    requires SettingsEnabled(s, step) && s' == Apply(s, Configure(step))
    ensures s'.past.missed == s.past.missed || exists rows :: IsReset(s, rows, s')
  {
    if step.Reset? && step.rows.Some? {
      assert IsReset(s, step.rows.value, s');
    }
  }

  lemma OnlyResetMisses(s: System, s': System)
    requires Reaches(s, s')
    ensures s'.past.missed == s.past.missed || exists rows :: IsReset(s, rows, s')
  {
    var step :| Enabled(s, step) && s' == Apply(s, step);
    match step
    case Admit(a) => AdmissionsMissNone(s, a);
    case Handle(h) => HandlersMissNone(s, h);
    case Configure(c) => ResetTells(s, c, s');
  }

  lemma FullReadMissesNone(s: System, s': System)
    requires Reaches(s, s') && FullRead(s, s')
    ensures s'.past.missed == s.past.missed
  {
    OnlyResetMisses(s, s');
    if rows :| IsReset(s, rows, s') {
      ResetMisses(s, rows, s');
    }
  }

  lemma {:induction false} NothingMissed(trace: seq<System>, i: nat)
    requires IsRun(trace) && i < |trace| && FullReads(trace)
    ensures trace[i].past.missed == {}
  {
    if i == 0 {
    } else {
      NothingMissed(trace, i - 1);
      PathStep(trace, i);
      assert FullReadAt(trace, i);
      FullReadMissesNone(trace[i - 1], trace[i]);
    }
  }

  /** Over a run, the registered peers are current whenever no settings handler is
      part-way through, if and only if every reset read the row of every stale peer
      or failed as a whole. A read that breaks off earlier leaves peers mapped. */
  lemma RegisteredPeersAreCurrentIff(trace: seq<System>)
    requires IsRun(trace)
    ensures (forall i | 0 <= i < |trace| && !trace[i].mutex.Resetting? :: NoneStale(trace[i]))
            <==> FullReads(trace)
  {
    if FullReads(trace) {
      forall i | 0 <= i < |trace| && !trace[i].mutex.Resetting? ensures NoneStale(trace[i]) {
        NothingMissed(trace, i);
        RunKeeps(trace, i);
      }
    } else {
      var i :| 0 < i < |trace| && !FullReadAt(trace, i);
      var rows :| IsReset(trace[i - 1], rows, trace[i]) && !ReadsEveryStale(trace[i - 1], rows);
      ResetMisses(trace[i - 1], rows, trace[i]);
      assert !trace[i].mutex.Resetting? && !NoneStale(trace[i]);
    }
  }

  /** A run in which the membership read breaks off at once: the key is replaced and
      the handler is over, but a peer admitted under the old key stays mapped. */
  lemma BrokenReadKeepsAPeer(former: string, fresher: string, hostname: string, address: string, token: Cell)
    returns (trace: seq<System>)
    requires ValidHostname(hostname) && former != fresher
    ensures IsRun(trace) && Last(trace).mutex.Free? && Stale(Last(trace).db, Last(trace).peers, 1)
    ensures Last(trace).peers[1].presented == OfSecret(former)
    ensures StoredHash(Last(trace).db) == OfSecret(fresher)
  {
    trace := SettingsGo([INIT], Save(address, former, token));
    trace := SettingsGo(trace, Reset(Some({})));
    var db := Last(trace).db;
    assert db.servers == map[] && db.hosts == map[];
    var key := OfSecret(former);
    var bound := RegisterShared(db, key, hostname).value;
    trace := AdmissionIsRun(trace, former, hostname, bound.db, Ok((1, PeerHash(key, hostname))));
    assert Last(trace).db.hosts[Fold(hostname)] == Some(1);
    trace := SettingsGo(trace, Save(address, fresher, token));
    trace := SettingsGo(trace, Reset(Some({})));
  }

  /** A secret that was ever saved as the shared key, and was never a device's, is
      accepted, by either path and for any host name, only while it is the stored
      and enabled key. */
  lemma ReplacedKeyIsRefused(trace: seq<System>, i: nat, secret: string)
    requires IsRun(trace) && i < |trace| && secret in trace[i].past.shared && secret !in trace[i].past.device
    requires trace[i].mutex.Admitting? && trace[i].mutex.a.presented == OfSecret(secret)
    requires trace[i].mutex.a.stage.Resolved?
    ensures Current(trace[i].db, OfSecret(secret))
    ensures trace[i].mutex.a.stage.hash == PeerHash(OfSecret(secret), trace[i].mutex.a.hostname)
  {
    RunKeeps(trace, i);
  }

  /** The condition matters: a device's secret that is also saved as the shared key
      is still accepted, for its own route, after the key has been replaced. */
  lemma SharedDeviceSecretStays(
    secret: string, fresher: string, hostname: string, clients: map<int, ClientCredential>, c: int, address: string, token: Cell)
    returns (trace: seq<System>, replaced: nat)
    requires ValidHostname(hostname) && c in clients && secret != fresher
    ensures IsRun(trace) && replaced < |trace|
    ensures secret in trace[replaced].past.shared && StoredHash(trace[replaced].db) == OfSecret(fresher)
    ensures 1 in Last(trace).peers && Last(trace).peers[1].presented == OfSecret(secret)
    ensures Last(trace).peers[1].since >= replaced
  {
    trace := ClaimRun([INIT], secret, hostname, clients, c);
    trace := SettingsGo(trace, Save(address, secret, token));
    trace := SettingsGo(trace, Reset(None));
    trace := SettingsGo(trace, Save(address, fresher, token));
    trace := SettingsGo(trace, Reset(None));
    replaced := |trace| - 1;
    RunKeeps(trace, replaced);
    trace := ReconnectRun(trace, secret, hostname, 1);
  }

  lemma ReconnectRun(trace: seq<System>, secret: string, hostname: string, id: int) returns (next: seq<System>)
    requires IsRun(trace) && Last(trace).mutex.Free? && id !in Last(trace).peers
    requires !HoldsKey(Last(trace).db, OfSecret(secret)) && DeviceAnswer(Last(trace).db, OfSecret(secret), hostname, id)
    ensures Continues(trace, next) && id in Last(next).peers
    ensures Last(next).peers[id].presented == OfSecret(secret) && Last(next).peers[id].since == Last(trace).clock
  {
    var db := Last(trace).db;
    assert Authenticated(db, db, OfSecret(secret), hostname, true, Ok(id));
    next := AdmissionIsRun(trace, secret, hostname, db, Ok((id, OfSecret(secret))));
  }

  /** No route and no token stores the hash of a secret that is no device's. */
  lemma RoutesNeverHoldSharedKeys(trace: seq<System>, i: nat, secret: string, id: int)
    requires IsRun(trace) && i < |trace| && secret in trace[i].past.shared && secret !in trace[i].past.device
    ensures id in trace[i].db.servers ==> trace[i].db.servers[id].hash != OfSecret(secret)
    ensures OfSecret(secret) !in trace[i].db.enrollments
  {
    RunKeeps(trace, i);
    assert OfSecret(secret) in trace[i].db.enrollments ==> TokenOk(trace[i].db, trace[i].past, OfSecret(secret));
  }

  // ---- handlers ----

  /** After a handler has disconnected a route, every peer mapped to that route was
      resolved, from its first statement on, after the handler's write. */
  lemma ReturnedHandlersLeaveNewPeers(trace: seq<System>, i: nat, h: nat)
    requires IsRun(trace) && i < |trace| && IsHandler(trace[i], h) && trace[i].handlers[h].Returned?
    ensures trace[i].handlers[h].wrote < i
    ensures var id := trace[i].handlers[h].id;
            id in trace[i].peers ==> trace[i].peers[id].since > trace[i].handlers[h].wrote
  {
    RunKeeps(trace, i);
  }

  // The route has a peer that was resolved, at least in part, before the write.
  predicate OldPeer(s: System, id: int, wrote: nat) {
    id in s.peers && s.peers[id].since <= wrote
  }

  predicate Over(x: Handler) {
    x.Returned? || x.Done?
  }

  predicate Finishing(x: Handler, id: int, wrote: nat) {
    x == Disconnecting(id, wrote) || x == Returned(id, wrote)
  }

  ghost predicate Moves(s: System, step: Step, s': System) {
    Enabled(s, step) && s' == Apply(s, step)
  }

  lemma OthersKeepHandlers(s: System, step: Step)
    requires Enabled(s, step) && !step.Handle?
    ensures Apply(s, step).handlers == s.handlers
  {
  }

  lemma HandlerStepsKeep(s: System, step: HandlerStep, h: nat)
    requires HandlerEnabled(s, step) && IsHandler(s, h) && (s.handlers[h].Disconnecting? || Over(s.handlers[h]))
    requires step != Disconnect(h)
    ensures IsHandler(HandlerApply(s, step), h) && HandlerApply(s, step).handlers[h] == s.handlers[h]
  {
  }

  // A handler that is about to disconnect does that next, and to that route.
  lemma FinishingNext(s: System, s': System, h: nat, id: int, wrote: nat)
    requires Reaches(s, s') && IsHandler(s, h) && Finishing(s.handlers[h], id, wrote)
    ensures IsHandler(s', h) && Finishing(s'.handlers[h], id, wrote)
    ensures s.handlers[h].Disconnecting? && s'.handlers[h].Returned? ==> s'.peers == s.peers - {id}
  {
    var step :| Enabled(s, step) && s' == Apply(s, step);
    if !step.Handle? {
      OthersKeepHandlers(s, step);
    } else if step.handle != Disconnect(h) {
      HandlerStepsKeep(s, step.handle, h);
    }
  }

  predicate FinishesIn(s: System, h: nat, id: int, wrote: nat) {
    IsHandler(s, h) && Finishing(s.handlers[h], id, wrote)
  }

  lemma {:induction false} FinishingStays(trace: seq<System>, i: nat, k: nat, h: nat, id: int, wrote: nat)
    requires IsRun(trace) && i <= k < |trace| && FinishesIn(trace[i], h, id, wrote)
    ensures FinishesIn(trace[k], h, id, wrote)
    decreases k
  {
    if i == k {
    } else {
      FinishingStays(trace, i, k - 1, h, id, wrote);
      PathStep(trace, k);
      FinishingNext(trace[k - 1], trace[k], h, id, wrote);
    }
  }

  // From its decision on, a handler either still has to disconnect the route or has
  // left no older peer on it.
  lemma DecidedLeavesNewPeers(trace: seq<System>, i: nat, k: nat, h: nat, id: int, wrote: nat)
    requires IsRun(trace) && i <= k < |trace| && IsHandler(trace[i], h) && trace[i].handlers[h] == Disconnecting(id, wrote)
    ensures IsHandler(trace[k], h)
    ensures trace[k].handlers[h] == Disconnecting(id, wrote)
            || (trace[k].handlers[h] == Returned(id, wrote) && !OldPeer(trace[k], id, wrote))
  {
    FinishingStays(trace, i, k, h, id, wrote);
    if trace[k].handlers[h].Returned? {
      ReturnedHandlersLeaveNewPeers(trace, k, h);
    }
  }

  // The handler is over in world k for the first time since i.
  ghost predicate EndsAt(trace: seq<System>, i: nat, k: nat, h: nat)
    requires i <= k < |trace|
  {
    && (forall m | i <= m <= k :: IsHandler(trace[m], h))
    && Over(trace[k].handlers[h]) && forall m | i <= m < k :: !Over(trace[m].handlers[h])
  }

  lemma JustEnded(trace: seq<System>, i: nat, k: nat, h: nat)
    requires i < k < |trace| && EndsAt(trace, i, k, h)
    ensures IsHandler(trace[k - 1], h) && !Over(trace[k - 1].handlers[h])
    ensures IsHandler(trace[k], h) && Over(trace[k].handlers[h])
  {
  }

  lemma OtherIsDisconnected(trace: seq<System>, i: nat, k: nat, h: nat, id: int, wrote: nat)
    requires IsRun(trace) && i < k < |trace| && FinishesIn(trace[i], h, id, wrote)
    requires IsHandler(trace[k - 1], h) && !Over(trace[k - 1].handlers[h])
    requires IsHandler(trace[k], h) && Over(trace[k].handlers[h])
    ensures trace[k].peers == trace[k - 1].peers - {id}
  {
    FinishingStays(trace, i, k - 1, h, id, wrote);
    PathStep(trace, k);
    ReturnDisconnects(trace[k - 1], trace[k], h, id, wrote);
  }

  lemma ReturnDisconnects(s: System, s': System, h: nat, id: int, wrote: nat)
    requires Reaches(s, s') && FinishesIn(s, h, id, wrote) && !Over(s.handlers[h])
    requires IsHandler(s', h) && Over(s'.handlers[h])
    ensures s'.peers == s.peers - {id}
  {
    FinishingNext(s, s', h, id, wrote);
  }

  // What a handler decided in the step to world i: to disconnect the route, to
  // disconnect another one, or nothing.
  lemma DecisionTells(trace: seq<System>, i: nat, k: nat, h: nat, id: int, wrote: nat, guard: bool)
    requires IsRun(trace) && 0 < i <= k < |trace| && EndsAt(trace, i, k, h)
    requires trace[i].peers == trace[i - 1].peers
    requires if guard then trace[i].handlers[h] == Disconnecting(id, wrote)
             else trace[i].handlers[h] == Done
                  || (trace[i].handlers[h].Disconnecting? && trace[i].handlers[h].id != id)
    ensures !OldPeer(trace[k], id, wrote) <==> guard || !OldPeer(trace[k - 1], id, wrote)
  {
    if guard {
      DecidedLeavesNewPeers(trace, i, k, h, id, wrote);
    } else if i < k {
      JustEnded(trace, i, k, h);
      OtherIsDisconnected(trace, i, k, h, trace[i].handlers[h].id, trace[i].handlers[h].wrote);
    }
  }

  // What the second read of a toggle finds: it succeeds, the name is still the
  // route's, and the route is disabled.
  predicate StillDisabled(s: System, h: nat, row: Option<int>)
    requires IsHandler(s, h) && s.handlers[h].Toggled?
  {
    row == Some(s.handlers[h].id) && row.value in s.db.servers && !s.db.servers[row.value].enabled
  }

  /** When the handler that sets the flag of a route returns, no peer from before its
      write is mapped to the route if and only if its second read found the route
      still disabled under that name, or none was mapped anyway. */
  lemma DisableLeavesNewPeersIff(trace: seq<System>, i: nat, k: nat, h: nat, row: Option<int>)
    requires IsRun(trace) && i < k < |trace| && Moves(trace[i], Handle(ReadToggled(h, row)), trace[i + 1])
    requires EndsAt(trace, i + 1, k, h)
    ensures var id, wrote := trace[i].handlers[h].id, trace[i].handlers[h].wrote;
            !OldPeer(trace[k], id, wrote) <==> StillDisabled(trace[i], h, row) || !OldPeer(trace[k - 1], id, wrote)
  {
    var id, wrote := trace[i].handlers[h].id, trace[i].handlers[h].wrote;
    DecisionTells(trace, i + 1, k, h, id, wrote, StillDisabled(trace[i], h, row));
  }

  /** If the second read found it disabled, then from there on the handler is still
      about to disconnect the route, or no older peer is mapped to it. */
  lemma DisabledRouteIsLeft(trace: seq<System>, i: nat, k: nat, h: nat, row: Option<int>)
    requires IsRun(trace) && i < k < |trace| && Moves(trace[i], Handle(ReadToggled(h, row)), trace[i + 1])
    requires StillDisabled(trace[i], h, row)
    ensures var id, wrote := trace[i].handlers[h].id, trace[i].handlers[h].wrote;
            IsHandler(trace[k], h)
            && (trace[k].handlers[h] == Disconnecting(id, wrote)
                || (trace[k].handlers[h] == Returned(id, wrote) && !OldPeer(trace[k], id, wrote)))
  {
    DecidedLeavesNewPeers(trace, i + 1, k, h, trace[i].handlers[h].id, trace[i].handlers[h].wrote);
  }

  /** When the handler that deletes a route returns, no peer from before the deletion
      is mapped to it if and only if its first read succeeded and found that route
      under the name, or none was mapped anyway. */
  lemma DeleteLeavesNewPeersIff(trace: seq<System>, i: nat, k: nat, h: nat, id: int)
    requires IsRun(trace) && i < k < |trace| && Moves(trace[i], Handle(WriteDelete(h, Some(id))), trace[i + 1])
    requires EndsAt(trace, i + 1, k, h)
    ensures id !in trace[k].db.servers
    ensures !OldPeer(trace[k], id, i) <==> trace[i].handlers[h].previous == Some(id) || !OldPeer(trace[k - 1], id, i)
  {
    RunKeeps(trace, i);
    DeletedIsGone(trace, i, k, h, id);
    DecisionTells(trace, i + 1, k, h, id, i, trace[i].handlers[h].previous == Some(id));
  }

  lemma DeletedIsGone(trace: seq<System>, i: nat, k: nat, h: nat, id: int)
    requires IsRun(trace) && i < k < |trace| && Moves(trace[i], Handle(WriteDelete(h, Some(id))), trace[i + 1])
    ensures id !in trace[k].db.servers
  {
    RunKeeps(trace, i);
    RunKeeps(trace, i + 1);
    DeletedRowsStayDeleted(trace, i + 1, k, id);
  }

  /** Disabling can miss: in every run in which an enabled route has a peer, another
      administrator can enable the route again between the handler's write and its
      second read. The handler is then over with the older peer still mapped. */
  lemma DisableCanMissAPeer(trace: seq<System>, name: string, id: int) returns (next: seq<System>)
    requires IsRun(trace) && Named(Last(trace).db.servers, name, id) && Last(trace).db.servers[id].enabled
    requires id in Last(trace).peers
    ensures Continues(trace, next) && |next| == |trace| + 3
    ensures var h := |Last(trace).handlers|;
            && Moves(Last(trace), Handle(StartToggle(name, id, false)), next[|trace|])
            && Moves(next[|trace| + 1], Handle(ReadToggled(h, Some(id))), Last(next))
            && Last(next).handlers[h] == Done && OldPeer(Last(next), id, Last(trace).clock)
  {
    var h := |Last(trace).handlers|;
    PeersAreEarlier(trace, id);
    next := HandlerGo(trace, StartToggle(name, id, false));
    next := HandlerGo(next, StartToggle(name, id, true));
    next := HandlerGo(next, ReadToggled(h, Some(id)));
  }

  lemma PeersAreEarlier(trace: seq<System>, id: int)
    requires IsRun(trace) && id in Last(trace).peers
    ensures OldPeer(Last(trace), id, Last(trace).clock)
  {
    RunKeeps(trace, |trace| - 1);
  }

  /** Deleting can miss too: when the route is created under the name only after the
      first read, the handler deletes it and is over, and its peer stays mapped. */
  lemma DeleteCanMissAPeer(secret: string, hostname: string, clients: map<int, ClientCredential>, c: int)
    returns (trace: seq<System>)
    requires ValidHostname(hostname) && c in clients
    ensures IsRun(trace) && |trace| > 1 && Moves(trace[|trace| - 2], Handle(WriteDelete(0, Some(1))), Last(trace))
    ensures Last(trace).handlers[0] == Done && OldPeer(Last(trace), 1, |trace| - 2)
  {
    trace := HandlerGo([INIT], StartDelete(hostname, None));
    trace := ClaimRun(trace, secret, hostname, clients, c);
    PeersAreEarlier(trace, 1);
    trace := DeleteLate(trace, hostname, 1);
  }

  lemma DeleteLate(trace: seq<System>, name: string, id: int) returns (next: seq<System>)
    requires IsRun(trace) && Named(Last(trace).db.servers, name, id) && OldPeer(Last(trace), id, Last(trace).clock)
    requires IsHandler(Last(trace), 0) && Last(trace).handlers[0] == Deleting(name, None)
    ensures IsRun(next) && |next| == |trace| + 1 && Moves(next[|next| - 2], Handle(WriteDelete(0, Some(id))), Last(next))
    ensures Last(next).handlers[0] == Done && OldPeer(Last(next), id, |next| - 2)
  {
    RunKeeps(trace, |trace| - 1);
    ThenRuns(trace, Handle(WriteDelete(0, Some(id))));
    next := Then(trace, Handle(WriteDelete(0, Some(id))));
  }

  /** A late teardown of an old connection leaves every other connection mapped. */
  lemma TeardownSparesSuccessors(trace: seq<System>, i: nat, id: int, conn: nat, other: int)
    requires IsRun(trace) && i < |trace| && Enabled(trace[i], Admit(Teardown(id, conn)))
    requires other in trace[i].peers && trace[i].peers[other].conn != conn
    ensures var s' := Apply(trace[i], Admit(Teardown(id, conn)));
            && other in s'.peers && s'.peers[other] == trace[i].peers[other]
            && forall j | j in s'.peers :: s'.peers[j].conn != conn || j != id
  {
  }

  // ---- host names ----

  /** The first route of a host name is its only one: for the rest of the run the
      name refers to that route or, once it is deleted, to none. */
  lemma HostHasOneRouteForever(trace: seq<System>, i: nat, j: nat, f: string)
    requires IsRun(trace) && i <= j < |trace| && f in trace[i].past.firsts
    ensures f in trace[j].db.hosts
    ensures var first := trace[i].past.firsts[f];
            trace[j].db.hosts[f] == if first in trace[j].db.servers then Some(first) else None
  {
    RunExtends(trace, i, j);
    RunKeeps(trace, j);
  }

  lemma DifferentHostsDifferentRoutes(trace: seq<System>, i: nat, f: string, g: string)
    requires IsRun(trace) && i < |trace| && f in trace[i].past.firsts && g in trace[i].past.firsts && f != g
    ensures trace[i].past.firsts[f] != trace[i].past.firsts[g]
  {
    RunKeeps(trace, i);
  }

  // Row keys are never used twice.
  lemma DeletedRowsStayDeleted(trace: seq<System>, i: nat, j: nat, id: int)
    requires IsRun(trace) && i <= j < |trace| && id < trace[i].db.nextServer && id !in trace[i].db.servers
    ensures id !in trace[j].db.servers
  {
    RunExtends(trace, i, j);
  }

  // At step i of the run the shared key `key` registers this host name on a route.
  ghost predicate RegistersAt(trace: seq<System>, i: nat, key: Hash, hostname: string, id: int) {
    && i + 1 < |trace| && AtStage(trace[i], SharedKey) && trace[i + 1] == Apply(trace[i], Admit(RegisterKey))
    && trace[i].mutex.a.presented == key && trace[i].mutex.a.hostname == hostname
    && trace[i + 1].mutex == Admitting(trace[i].mutex.a.(stage := Resolved(id, PeerHash(key, hostname))))
  }

  lemma RegisteredIsFirst(trace: seq<System>, i: nat, key: Hash, hostname: string, id: int)
    requires IsRun(trace) && RegistersAt(trace, i, key, hostname, id)
    ensures Fold(hostname) in trace[i + 1].past.firsts && trace[i + 1].past.firsts[Fold(hostname)] == id
    ensures id in trace[i + 1].db.servers && id < trace[i + 1].db.nextServer
  {
    RunKeeps(trace, i);
    RunKeeps(trace, i + 1);
    SharedRegistrationIs(trace[i].db, key, hostname);
  }

  /** Over a whole run, whatever happens between, two registrations reach one route
      exactly when their host names differ at most in letter case, whatever keys were
      stored then. */
  lemma RegistrationsAgreeIff(
    trace: seq<System>, i: nat, j: nat, k: Hash, a: string, id: int, l: Hash, b: string, other: int)
    requires IsRun(trace) && i < j && RegistersAt(trace, i, k, a, id) && RegistersAt(trace, j, l, b, other)
    ensures id == other <==> SameLetters(a, b)
  {
    RegisteredIsFirst(trace, i, k, a, id);
    RegisteredIsFirst(trace, j, l, b, other);
    HostHasOneRouteForever(trace, i + 1, j + 1, Fold(a));
    RunExtends(trace, i + 1, j + 1);
    RunKeeps(trace, j + 1);
    FoldMeans(a, b);
  }

  /** Once the route that a host name was registered on is deleted, every later
      registration fails, under any key, of that name in any spelling. */
  lemma DeletedHostIsNeverRegistered(
    trace: seq<System>, m: nat, i: nat, j: nat, k: Hash, a: string, id: int, key: Hash, b: string)
    requires IsRun(trace) && RegistersAt(trace, m, k, a, id) && m < i <= j < |trace|
    requires id !in trace[i].db.servers && SameLetters(a, b)
    ensures RegisterShared(trace[j].db, key, b).Err?
  {
    RegisteredIsFirst(trace, m, k, a, id);
    RunExtends(trace, m + 1, i);
    DeletedRowsStayDeleted(trace, i, j, id);
    HostHasOneRouteForever(trace, m + 1, j, Fold(a));
    FoldMeans(a, b);
  }

  // ---- enrollment tokens ----

  /** Over a whole run a token creates at most one route; it is used, bound to a
      host name and linked to that route together or not at all. */
  lemma TokenCreatesOneRoute(trace: seq<System>, i: nat, h: Hash)
    requires IsRun(trace) && i < |trace| && h in trace[i].db.enrollments
    ensures var e, claims := trace[i].db.enrollments[h], trace[i].past.claims;
            && (h in claims ==> |claims[h]| == 1)
            && (e.used <==> h in claims) && (e.used <==> e.hostname != "")
            && (e.server.Some? ==> e.used && claims[h] == [e.server.value])
            && (e.used && claims[h][0] in trace[i].db.servers ==> e.server == Some(claims[h][0]))
  {
    RunKeeps(trace, i);
    assert TokenOk(trace[i].db, trace[i].past, h);
  }

  /** A reconnect with an enrollment token reaches the route the token created, and
      only under the host name it was bound to. */
  lemma ReconnectReachesTheSameRoute(trace: seq<System>, i: nat)
    requires IsRun(trace) && i < |trace| && trace[i].mutex.Admitting? && trace[i].mutex.a.stage.Resolved?
    requires trace[i].mutex.a.presented in trace[i].db.enrollments
    ensures var a, db := trace[i].mutex.a, trace[i].db;
            if a.stage.hash == a.presented then
              && a.presented in trace[i].past.claims && trace[i].past.claims[a.presented] == [a.stage.id]
              && db.enrollments[a.presented].hostname == a.hostname
            else Current(db, a.presented)
  {
    RunKeeps(trace, i);
    assert TokenOk(trace[i].db, trace[i].past, trace[i].mutex.a.presented);
  }

  // ---- device secrets that stop working ----

  // The secret was issued, no route holds it and no token can claim with it. A token
  // whose credentials are all deleted never claims.
  ghost predicate Dead(db: Db, past: History, secret: string) {
    && (secret in past.device || secret in past.shared)
    && (forall id | id in db.servers :: db.servers[id].hash != OfSecret(secret))
    && (Claimable(db, OfSecret(secret)) ==> db.enrollments[OfSecret(secret)].credentials == {})
  }

  lemma RotateKills(db: Db, past: History, id: int, before: string, fresher: string)
    requires DbOk(db, past) && id in db.servers && db.servers[id].hash == OfSecret(before) && fresher !in past.device
    ensures Dead(SetHash(db, id, OfSecret(fresher)), past.(device := past.device + {fresher}), before)
  {
    assert OfSecret(before) in db.enrollments ==> TokenOk(db, past, OfSecret(before));
  }

  lemma RevokeKills(db: Db, past: History, secret: string)
    requires DbOk(db, past) && OfSecret(secret) in db.enrollments
    ensures Dead(Revoke(db, OfSecret(secret)).value.db, past, secret)
  {
    assert TokenOk(db, past, OfSecret(secret));
  }

  lemma DeleteKills(db: Db, past: History, id: int, secret: string)
    requires DbOk(db, past) && id in db.servers && db.servers[id].hash == OfSecret(secret)
    ensures Dead(DeleteServer(db, id), past, secret)
  {
    assert OfSecret(secret) in db.enrollments ==> TokenOk(db, past, OfSecret(secret));
  }

  lemma DeadStays(s: System, step: Step, secret: string)
    requires Enabled(s, step) && Dead(s.db, s.past, secret)
    ensures Dead(Apply(s, step).db, Apply(s, step).past, secret)
  {
    match step
    case Admit(a) =>
      if a.RegisterKey? {
        DeadRegister(s.db, s.past, secret, s.mutex.a.presented, s.mutex.a.hostname);
      } else if a.ClaimToken? {
        DeadClaim(s.db, s.past, secret, s.mutex.a.presented, s.mutex.a.hostname);
      }
    case Handle(h) => DeadHandler(s, h, secret);
    case Configure(c) => DeadSettings(s, c, secret);
  }

  lemma DeadRegister(db: Db, past: History, secret: string, key: Hash, hostname: string)
    requires Dead(db, past, secret)
    ensures var r := RegisterShared(db, key, hostname); r.Ok? ==> Dead(r.value.db, past, secret)
  {
  }

  lemma DeadClaim(db: Db, past: History, secret: string, h: Hash, hostname: string)
    requires Dead(db, past, secret)
    ensures var r := ClaimEnrollment(db, h, hostname); r.Ok? ==> Dead(r.value.db, past, secret)
  {
  }

  lemma DeadSettings(s: System, step: SettingsStep, secret: string)
    requires SettingsEnabled(s, step) && Dead(s.db, s.past, secret)
    ensures Dead(SettingsApply(s, step).db, SettingsApply(s, step).past, secret)
  {
  }

  lemma DeadHandler(s: System, step: HandlerStep, secret: string)
    requires HandlerEnabled(s, step) && Dead(s.db, s.past, secret)
    ensures Dead(HandlerApply(s, step).db, HandlerApply(s, step).past, secret)
  {
    if IssuesOrRevokes(step) {
      DeadTokens(s, step, secret);
    } else if EditsRoutes(step) {
      DeadRoutes(s, step, secret);
    } else {
      assert HandlerApply(s, step).db == s.db && HandlerApply(s, step).past == s.past;
    }
  }

  lemma DeadTokens(s: System, step: HandlerStep, secret: string)
    requires HandlerEnabled(s, step) && Dead(s.db, s.past, secret) && IssuesOrRevokes(step)
    ensures Dead(HandlerApply(s, step).db, HandlerApply(s, step).past, secret)
  {
  }

  lemma DeadRoutes(s: System, step: HandlerStep, secret: string)
    requires HandlerEnabled(s, step) && Dead(s.db, s.past, secret) && EditsRoutes(step)
    ensures Dead(HandlerApply(s, step).db, HandlerApply(s, step).past, secret)
  {
    match step
    case StartUpsert(request) => DeadUpsert(s.db, s.past, Validate(request).value, secret);
    case StartToggle(name, id, enabled) =>
    case WriteDelete(h, row) =>
      if row.Some? {
        DeadDelete(s.db, s.past, row.value, secret);
      }
    case EditCredentials(change) =>
  }

  lemma DeadUpsert(db: Db, past: History, v: RouteRequest, secret: string)
    requires Dead(db, past, secret)
    ensures Upsert(db, v).Ok? ==> Dead(Upsert(db, v).value, past, secret)
  {
  }

  lemma DeadDelete(db: Db, past: History, id: int, secret: string)
    requires Dead(db, past, secret)
    ensures Dead(DeleteServer(db, id), past, secret)
  {
  }

  // Not accepted, or accepted as the shared key.
  predicate Harmless(stage: Stage) {
    stage.Begin? || stage.SharedKey? || stage.DeviceKey? || stage.Unmatched? || stage.Claiming? || stage.Failed?
    || (stage.Resolved? && stage.hash.OfHost?)
  }

  // From time t on the secret gets no admission further than the checks, unless an
  // administrator saved it as the shared key.
  ghost predicate Barred(s: System, secret: string, t: nat) {
    && Dead(s.db, s.past, secret)
    && (forall id | id in s.peers && s.peers[id].hash == OfSecret(secret) :: s.peers[id].since < t)
    && (s.mutex.Admitting? && s.mutex.a.presented == OfSecret(secret) && s.mutex.a.since >= t ==>
          Harmless(s.mutex.a.stage))
  }

  lemma BarredAdmit(s: System, step: AdmitStep, secret: string, t: nat)
    requires Inv(s) && AdmitEnabled(s, step) && Barred(s, secret, t)
    ensures var s' := AdmitApply(s, step);
            && (forall id | id in s'.peers && s'.peers[id].hash == OfSecret(secret) :: s'.peers[id].since < t)
            && (s'.mutex.Admitting? && s'.mutex.a.presented == OfSecret(secret) && s'.mutex.a.since >= t ==>
                  Harmless(s'.mutex.a.stage))
  {
  }

  lemma BarredStays(s: System, step: Step, secret: string, t: nat)
    requires Inv(s) && Enabled(s, step) && Barred(s, secret, t)
    ensures Barred(Apply(s, step), secret, t)
  {
    DeadStays(s, step, secret);
    match step
    case Admit(a) => BarredAdmit(s, a, secret, t);
    case Handle(h) => HandlersSpare(s, h);
    case Configure(c) =>
  }

  lemma HandlersSpare(s: System, step: HandlerStep)
    requires HandlerEnabled(s, step)
    ensures var s' := HandlerApply(s, step);
            s'.mutex == s.mutex && forall id | id in s'.peers :: id in s.peers && s'.peers[id] == s.peers[id]
  {
  }

  ghost predicate InvBarred(s: System, secret: string, t: nat) {
    Inv(s) && Barred(s, secret, t)
  }

  lemma BarredNext(s: System, s': System, secret: string, t: nat)
    requires InvBarred(s, secret, t) && Reaches(s, s')
    ensures InvBarred(s', secret, t)
  {
    var step :| Enabled(s, step) && s' == Apply(s, step);
    BarredStays(s, step, secret, t);
    StepKeeps(s, step);
  }

  lemma BarredNow(trace: seq<System>, i: nat, secret: string)
    requires IsRun(trace) && i < |trace| && Dead(trace[i].db, trace[i].past, secret)
    ensures InvBarred(trace[i], secret, i)
  {
    RunKeeps(trace, i);
  }

  lemma {:induction false} BarredAlong(trace: seq<System>, i: nat, k: nat, secret: string, t: nat)
    requires IsRun(trace) && i <= k < |trace| && InvBarred(trace[i], secret, t)
    ensures InvBarred(trace[k], secret, t)
    decreases k
  {
    if i == k {
    } else {
      BarredAlong(trace, i, k - 1, secret, t);
      PathStep(trace, k);
      BarredNext(trace[k - 1], trace[k], secret, t);
    }
  }

  /** Once no route holds a device secret and no token can claim with it, it is
      never accepted again in the run: no admission that starts later gets past the
      checks, and every peer still mapped under it was admitted before. */
  lemma DeadSecretIsNeverAccepted(trace: seq<System>, i: nat, j: nat, secret: string)
    requires IsRun(trace) && i <= j < |trace| && Dead(trace[i].db, trace[i].past, secret)
    ensures InvBarred(trace[j], secret, i)
  {
    BarredNow(trace, i, secret);
    BarredAlong(trace, i, j, secret, i);
  }

  /** After a rotation has returned, no peer of the route runs on the old secret. */
  lemma RotatedSecretIsGone(trace: seq<System>, i: nat, j: nat, h: nat, fresher: string, before: string)
    requires IsRun(trace) && i + 1 <= j < |trace|
    requires Enabled(trace[i], Handle(WriteRotate(h, fresher))) && trace[i + 1] == Apply(trace[i], Handle(WriteRotate(h, fresher)))
    requires var id := trace[i].handlers[h].id; id in trace[i].db.servers && trace[i].db.servers[id].hash == OfSecret(before)
    requires IsHandler(trace[j], h) && trace[j].handlers[h] == Returned(trace[i].handlers[h].id, i)
    ensures var id := trace[i].handlers[h].id;
            id in trace[j].peers ==> trace[j].peers[id].hash != OfSecret(before)
    ensures forall id :: !IsDeviceRow(trace[j].db, OfSecret(before), id)
  {
    RunKeeps(trace, i);
    RotateKills(trace[i].db, trace[i].past, trace[i].handlers[h].id, before, fresher);
    DeadSecretIsNeverAccepted(trace, i + 1, j, before);
  }

  // ---- sessions ----

  // agentSession goes on when the route's row, read by name, holds the hash of the
  // peer it then finds in the map.
  predicate Dispatches(row: Server, peers: map<int, Peer>, id: int) {
    row.enabled && row.kind == AgentServer && id in peers && peers[id].hash == row.hash
  }

  /** Once no route and no token accepts a device secret, as after a rotation,
      revocation or deletion, no session that reads its row later dispatches to a
      peer admitted under that secret, even before it is disconnected. */
  lemma NoDispatchOnADeadSecret(trace: seq<System>, t: nat, i: nat, k: nat, secret: string, row: int, id: int)
    requires IsRun(trace) && t <= i <= k < |trace| && Dead(trace[t].db, trace[t].past, secret)
    requires row in trace[i].db.servers && Dispatches(trace[i].db.servers[row], trace[k].peers, id)
    ensures trace[k].peers[id].hash != OfSecret(secret)
  {
    DeadSecretIsNeverAccepted(trace, t, i, secret);
  }
}
