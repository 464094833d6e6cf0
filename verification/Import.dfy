/** The CSV import of the servers page (webui/src/ServersPage.tsx) against the store:
    the page edits its own snapshot of the credential relation and must keep it equal
    to the server's. A request is rejected, or it takes effect and is answered, or it
    takes effect and its answer is lost, which the page cannot tell from a rejection. */
module Import {
  import opened Wrappers
  import opened Tables
  import opened Routing
  import opened Credentials
  import opened Stores

  // One client credential as the page holds it.
  datatype Working = Working(id: int, caption: string, auth: AuthType, publicKey: string, users: seq<string>)

  datatype Row = Row(
    name: string, host: string, port: int, ownership: string, credential: Option<int>, clients: set<int>)

  function EchoOf(w: Working): Update {
    Update(w.caption, if w.auth == PublicKey then "public_key" else "password", w.publicKey, "")
  }

  function Without(users: seq<string>, name: string): seq<string> {
    if users == [] then []
    else if users[0] == name then Without(users[1..], name)
    else [users[0]] + Without(users[1..], name)
  }

  ghost predicate NoRepeats(users: seq<string>) {
    forall i, j | 0 <= i < j < |users| :: users[i] != users[j]
  }

  lemma TailHasNoRepeats(users: seq<string>)
    requires users != [] && NoRepeats(users)
    ensures NoRepeats(users[1..]) && users[0] !in users[1..]
  {
    assert forall i | 0 <= i < |users| - 1 :: users[1..][i] == users[i + 1];
  }

  lemma {:induction false} WithoutMeans(users: seq<string>, name: string)
    ensures Elements(Without(users, name)) == Elements(users) - {name}
    ensures NoRepeats(users) ==> NoRepeats(Without(users, name))
  {
    if users == [] {
    } else {
      WithoutMeans(users[1..], name);
      assert users == [users[0]] + users[1..];
      assert users[0] in users;
      forall n ensures n in Without(users, name) <==> n in users && n != name {
        assert n in Without(users[1..], name) <==> n in Elements(Without(users[1..], name));
        assert n in users[1..] <==> n in Elements(users[1..]);
      }
      if NoRepeats(users) {
        TailHasNoRepeats(users);
        var first, rest := users[0], Without(users[1..], name);
        assert first in rest <==> first in Elements(rest);
        assert first in users[1..] <==> first in Elements(users[1..]);
      }
    }
  }

  datatype Answer = Rejected | Unanswered | Answered

  // The database, the page's snapshot, and, for every credential whose last effective
  // update was not answered, the login that update added or removed.
  datatype Page = Page(db: Db, working: seq<Working>, lost: map<int, string>)

  // ---- agreement ----

  // A snapshot entry is what the server has for that credential.
  ghost predicate EntryAgrees(db: Db, w: Working) {
    && w.id in db.clientCredentials
    && EchoOf(w) == Echo(db.clientCredentials[w.id])
    && NoRepeats(w.users) && Elements(w.users) == NamesOf(db, w.id)
  }

  ghost predicate Covers(db: Db, working: seq<Working>) {
    && (forall i, j | 0 <= i < j < |working| :: working[i].id != working[j].id)
    && (forall id | id in db.clientCredentials :: exists i :: 0 <= i < |working| && working[i].id == id)
  }

  /** The snapshot is the server's relation. */
  ghost predicate Agrees(db: Db, working: seq<Working>) {
    Covers(db, working) && forall i | 0 <= i < |working| :: EntryAgrees(db, working[i])
  }

  ghost predicate Sound(db: Db) {
    Refs(db) && db.nextServer > 0 && forall id | id in db.clientCredentials :: Canonical(db.clientCredentials[id])
  }

  predicate Linked(db: Db, name: string, credential: int) {
    name in NamesOf(db, credential)
  }

  function Toggle(names: set<string>, name: string): set<string> {
    if name in names then names - {name} else names + {name}
  }

  function Toggled(users: seq<string>, name: string): seq<string> {
    if name in users then Without(users, name) else users + [name]
  }

  // What the server has for an entry: the entry's list, but for a lost edit.
  function ServerHas(w: Working, lost: map<int, string>): set<string> {
    if w.id in lost then Toggle(Elements(w.users), lost[w.id]) else Elements(w.users)
  }

  ghost predicate EntryTracks(p: Page, w: Working) {
    && w.id in p.db.clientCredentials
    && EchoOf(w) == Echo(p.db.clientCredentials[w.id])
    && NoRepeats(w.users) && (forall n | n in w.users :: Known(p.db.servers, n))
    && NamesOf(p.db, w.id) == ServerHas(w, p.lost)
  }

  // The invariant of the page: every entry is the server's, but for its lost edit.
  ghost predicate Tracks(p: Page) {
    && Sound(p.db) && Covers(p.db, p.working) && p.lost.Keys <= p.db.clientCredentials.Keys
    && forall i | 0 <= i < |p.working| :: EntryTracks(p, p.working[i])
  }

  lemma EntryAgreesIff(p: Page, w: Working)
    requires EntryTracks(p, w)
    ensures EntryAgrees(p.db, w) <==> w.id !in p.lost
  {
    var names := Elements(w.users);
    if w.id in p.lost {
      assert p.lost[w.id] in names <==> p.lost[w.id] !in Toggle(names, p.lost[w.id]);
    }
  }

  /** The snapshot is the server's relation exactly when no credential's last
      effective update went unanswered. */
  lemma AgreesIff(p: Page)
    requires Tracks(p)
    ensures Agrees(p.db, p.working) <==> p.lost == map[]
  {
    forall i | 0 <= i < |p.working| ensures EntryAgrees(p.db, p.working[i]) <==> p.working[i].id !in p.lost {
      assert EntryTracks(p, p.working[i]);
      EntryAgreesIff(p, p.working[i]);
    }
    if forall id :: id !in p.lost {
      assert p.lost == map[];
    } else {
      var id :| id in p.lost;
      assert id in p.lost.Keys;
      var i :| 0 <= i < |p.working| && p.working[i].id == id;
      assert !EntryAgrees(p.db, p.working[i]);
    }
  }

  // A fresh copy of the server's list has no lost edits.
  lemma FreshCopyTracks(db: Db, working: seq<Working>)
    requires Sound(db) && Agrees(db, working)
    ensures Tracks(Page(db, working, map[]))
  {
    var p := Page(db, working, map[]);
    forall i | 0 <= i < |working| ensures EntryTracks(p, working[i]) {
      assert EntryAgrees(db, working[i]);
      NamesAreKnown(db, working[i].id);
      forall n | n in working[i].users ensures Known(db.servers, n) {
        assert n in Elements(working[i].users);
      }
    }
  }

  lemma NamesAreKnown(db: Db, id: int)
    requires Refs(db)
    ensures forall n | n in NamesOf(db, id) :: Known(db.servers, n)
  {
    forall n | n in NamesOf(db, id) ensures Known(db.servers, n) {
      var p :| p in db.links && p.1 == id && p.0 in db.servers && db.servers[p.0].name == n;
      assert Named(db.servers, n, p.0);
    }
  }

  // ---- one update request ----

  // What an edit of the relation leaves alone.
  ghost predicate OnlyLinks(before: Db, after: Db) {
    after == before.(links := after.links)
  }

  // The request reaches the server and passes its check of the caption.
  predicate TakesEffect(w: Working, answer: Answer) {
    !answer.Rejected? && w.caption != ""
  }

  /** The update of entry i that adds or removes one login: the page sends its own
      list with that change, and keeps the change only if it is answered. */
  ghost function AfterSave(p: Page, i: nat, name: string, answer: Answer): Page
    requires i < |p.working|
  {
    var w := p.working[i];
    var users := Toggled(w.users, name);
    match UpdateCredential(p.db, w.id, EchoOf(w), users, "")
    case None => p
    case Some(db) =>
      if !TakesEffect(w, answer) then p
      else if answer.Answered? then Page(db, p.working[i := w.(users := users)], p.lost - {w.id})
      else Page(db, p.working, p.lost[w.id := name])
  }

  lemma ToggledMeans(users: seq<string>, name: string)
    requires NoRepeats(users)
    ensures NoRepeats(Toggled(users, name)) && Elements(Toggled(users, name)) == Toggle(Elements(users), name)
    ensures forall n | n in Toggled(users, name) :: n == name || n in users
  {
    assert name in users <==> name in Elements(users);
    UsersEdited(users, name, name !in users);
    forall n | n in Toggled(users, name) ensures n == name || n in users {
      assert n in Elements(Toggled(users, name));
      assert n in Elements(users) <==> n in users;
    }
  }

  // The store accepts the list; then the credential has exactly its names and no other
  // credential changes.
  lemma UpdateTakesEffect(db: Db, w: Working, users: seq<string>) returns (db': Db)
    requires Sound(db) && w.id in db.clientCredentials && EchoOf(w) == Echo(db.clientCredentials[w.id])
    requires NoRepeats(users) && forall n | n in users :: Known(db.servers, n)
    ensures UpdateCredential(db, w.id, EchoOf(w), users, "") == Some(db')
    ensures Sound(db') && OnlyLinks(db, db') && NamesOf(db', w.id) == Elements(users)
    ensures forall id | id != w.id :: NamesOf(db', id) == NamesOf(db, id)
  {
    EchoKeepsSecrets(db.clientCredentials[w.id], "");
    db' := UpdateCredential(db, w.id, EchoOf(w), users, "").value;
    assert db'.clientCredentials == db.clientCredentials;
    UpdateCredentialMeans(db, w.id, EchoOf(w), users, "", w.id);
    assert NamesOf(db', w.id) == Elements(users);
    forall id | id != w.id ensures NamesOf(db', id) == NamesOf(db, id) {
      UpdateCredentialMeans(db, w.id, EchoOf(w), users, "", id);
    }
  }

  // The other entries of a page after one credential's names changed.
  lemma OtherEntries(p: Page, p': Page, i: nat)
    requires Tracks(p) && i < |p.working| && |p'.working| == |p.working| && OnlyLinks(p.db, p'.db)
    requires forall k | 0 <= k < |p.working| && k != i :: p'.working[k] == p.working[k]
    requires p'.working[i].id == p.working[i].id
    requires forall id | id != p.working[i].id :: (id in p'.lost <==> id in p.lost) && (id in p.lost ==> p'.lost[id] == p.lost[id])
    requires forall id | id != p.working[i].id :: NamesOf(p'.db, id) == NamesOf(p.db, id)
    ensures Covers(p'.db, p'.working)
    ensures forall k | 0 <= k < |p.working| && k != i :: EntryTracks(p', p'.working[k])
  {
    assert forall k | 0 <= k < |p.working| :: p'.working[k].id == p.working[k].id;
    forall id | id in p'.db.clientCredentials ensures exists k :: 0 <= k < |p'.working| && p'.working[k].id == id {
      var k :| 0 <= k < |p.working| && p.working[k].id == id;
      assert p'.working[k].id == id;
    }
    forall k | 0 <= k < |p.working| && k != i ensures EntryTracks(p', p'.working[k]) {
      assert EntryTracks(p, p.working[k]);
      assert p.working[k].id != p.working[i].id;
    }
  }

  /** One update request keeps the page's invariant. If it takes effect the credential
      has the page's list with this one change. */
  lemma SaveTracks(p: Page, i: nat, name: string, answer: Answer)
    requires Tracks(p) && i < |p.working| && Known(p.db.servers, name)
    ensures var p' := AfterSave(p, i, name, answer);
            var w := p.working[i];
            && Tracks(p') && OnlyLinks(p.db, p'.db)
            && (forall id | id != w.id :: NamesOf(p'.db, id) == NamesOf(p.db, id))
            && NamesOf(p'.db, w.id) == (if TakesEffect(w, answer) then Toggle(Elements(w.users), name) else NamesOf(p.db, w.id))
            && (answer.Answered? && TakesEffect(w, answer) <==> p'.working[i].users == Toggled(w.users, name))
            && UpdateCredential(p.db, w.id, EchoOf(w), Toggled(w.users, name), "").Some?
  {
    var w, p' := p.working[i], AfterSave(p, i, name, answer);
    assert EntryTracks(p, w);
    ToggledMeans(w.users, name);
    var db' := UpdateTakesEffect(p.db, w, Toggled(w.users, name));
    ToggledDiffers(w.users, name);
    if TakesEffect(w, answer) {
      OtherEntries(p, p', i);
      SavedEntryTracks(p, i, name, answer, db');
    }
  }

  lemma ToggledDiffers(users: seq<string>, name: string)
    requires NoRepeats(users)
    ensures Toggled(users, name) != users
  {
    ToggledMeans(users, name);
    assert name in Elements(users) <==> name !in Toggle(Elements(users), name);
  }

  lemma SavedEntryTracks(p: Page, i: nat, name: string, answer: Answer, db': Db)
    requires Tracks(p) && i < |p.working| && Known(p.db.servers, name) && TakesEffect(p.working[i], answer)
    requires UpdateCredential(p.db, p.working[i].id, EchoOf(p.working[i]), Toggled(p.working[i].users, name), "") == Some(db')
    requires OnlyLinks(p.db, db') && NamesOf(db', p.working[i].id) == Elements(Toggled(p.working[i].users, name))
    ensures EntryTracks(AfterSave(p, i, name, answer), AfterSave(p, i, name, answer).working[i])
  {
    assert EntryTracks(p, p.working[i]);
    ToggledMeans(p.working[i].users, name);
  }

  /** Whether another login's pair with this credential survives an update: it changes
      if and only if the update takes effect and that login's own last edit of the
      credential was lost. */
  lemma PairSurvivesIff(p: Page, i: nat, name: string, answer: Answer, other: string)
    requires Tracks(p) && i < |p.working| && Known(p.db.servers, name) && other != name
    ensures var w := p.working[i];
            (Linked(AfterSave(p, i, name, answer).db, other, w.id) <==> Linked(p.db, other, w.id))
            <==> !(TakesEffect(w, answer) && w.id in p.lost && p.lost[w.id] == other)
  {
    SaveTracks(p, i, name, answer);
    var w := p.working[i];
    assert EntryTracks(p, w);
    var before, after := NamesOf(p.db, w.id), NamesOf(AfterSave(p, i, name, answer).db, w.id);
    ToggleOthers(Elements(w.users), name, other);
    if w.id in p.lost {
      ToggleOthers(Elements(w.users), p.lost[w.id], other);
    }
    assert Linked(p.db, other, w.id) == (other in before);
    assert Linked(AfterSave(p, i, name, answer).db, other, w.id) == (other in after);
  }

  lemma ToggleOthers(names: set<string>, name: string, other: string)
    ensures other in Toggle(names, name) <==> if other == name then other !in names else other in names
  {
  }

  // ---- one new route ----

  // A new route has no credentials, so the relation by login name stays the same.
  lemma InsertKeepsRelation(db: Db, q: RouteRequest)
    requires Sound(db) && q.id == 0 && Upsert(db, q).Ok?
    ensures var db' := Upsert(db, q).value;
            && Sound(db') && Known(db'.servers, q.name) && !Known(db.servers, q.name)
            && (forall n | Known(db.servers, n) :: Known(db'.servers, n))
            && (forall id :: NamesOf(db', id) == NamesOf(db, id))
            && (forall n | Known(db'.servers, n) && !Known(db.servers, n) :: n == q.name)
            && db'.clientCredentials == db.clientCredentials
  {
    var db' := Upsert(db, q).value;
    assert Named(db'.servers, q.name, db.nextServer);
    forall n | Known(db.servers, n) ensures Known(db'.servers, n) {
      var s :| Named(db.servers, n, s);
      assert Named(db'.servers, n, s);
    }
    forall n | Known(db'.servers, n) && !Known(db.servers, n) ensures n == q.name {
      var s :| Named(db'.servers, n, s);
      assert s != db.nextServer ==> Named(db.servers, n, s);
    }
    forall id ensures NamesOf(db', id) == NamesOf(db, id) {
    }
  }

  ghost function AfterCreate(p: Page, q: RouteRequest): Page
    requires Upsert(p.db, q).Ok?
  {
    p.(db := Upsert(p.db, q).value)
  }

  lemma CreateTracks(p: Page, q: RouteRequest)
    requires Tracks(p) && q.id == 0 && Upsert(p.db, q).Ok?
    ensures Tracks(AfterCreate(p, q)) && Known(AfterCreate(p, q).db.servers, q.name)
  {
    InsertKeepsRelation(p.db, q);
    var p' := AfterCreate(p, q);
    forall i | 0 <= i < |p'.working| ensures EntryTracks(p', p'.working[i]) {
      assert EntryTracks(p, p.working[i]);
    }
  }

  // A login that is new is in no entry.
  lemma NewLoginIsNowhere(p: Page, name: string, i: nat)
    requires Tracks(p) && !Known(p.db.servers, name) && i < |p.working|
    ensures name !in p.working[i].users
  {
    assert EntryTracks(p, p.working[i]);
  }

  /** A lost answer can cost a grant. Two new logins a and b are to get the same
      credential. The update for a takes effect but is not answered: the server grants
      it and the snapshot does not know. The answered update for b then sends the stale
      list, which removes a's grant, and snapshot and server agree again. */
  lemma LostAnswerDropsAGrant(p: Page, a: RouteRequest, b: RouteRequest, i: nat)
    requires Tracks(p) && p.lost == map[] && i < |p.working| && p.working[i].caption != ""
    requires a.id == 0 && b.id == 0 && Upsert(p.db, a).Ok? && Upsert(Upsert(p.db, a).value, b).Ok?
    ensures var id := p.working[i].id;
            var p1 := AfterSave(AfterCreate(p, a), i, a.name, Unanswered);
            Linked(p1.db, a.name, id) && !Agrees(p1.db, p1.working)
            && Upsert(p1.db, b).Ok?
            && var p2 := AfterSave(AfterCreate(p1, b), i, b.name, Answered);
               !Linked(p2.db, a.name, id) && Linked(p2.db, b.name, id) && Agrees(p2.db, p2.working)
  {
    var p1 := AfterSave(AfterCreate(p, a), i, a.name, Unanswered);
    GrantIsLost(p, a, i);
    GrantIsDropped(p1, b, i, a.name);
  }

  lemma GrantIsLost(p: Page, a: RouteRequest, i: nat)
    requires Tracks(p) && p.lost == map[] && i < |p.working| && p.working[i].caption != ""
    requires a.id == 0 && Upsert(p.db, a).Ok?
    ensures var id := p.working[i].id;
            var p1 := AfterSave(AfterCreate(p, a), i, a.name, Unanswered);
            && Tracks(p1) && p1.lost == map[id := a.name] && p1.working == p.working
            && p1.db.servers == Upsert(p.db, a).value.servers && p1.db.nextServer == Upsert(p.db, a).value.nextServer
            && Known(p1.db.servers, a.name) && a.name !in p.working[i].users
            && Linked(p1.db, a.name, id) && !Agrees(p1.db, p1.working)
  {
    var pa := AfterCreate(p, a);
    CreateTracks(p, a);
    InsertKeepsRelation(p.db, a);
    NewLoginIsNowhere(p, a.name, i);
    SaveTracks(pa, i, a.name, Unanswered);
    AgreesIff(AfterSave(pa, i, a.name, Unanswered));
    assert a.name !in Elements(p.working[i].users);
  }

  lemma GrantIsDropped(p: Page, b: RouteRequest, i: nat, a: string)
    requires Tracks(p) && i < |p.working| && p.working[i].caption != ""
    requires p.lost == map[p.working[i].id := a] && a !in p.working[i].users && Known(p.db.servers, a)
    requires b.id == 0 && Upsert(p.db, b).Ok?
    ensures var id := p.working[i].id;
            var p2 := AfterSave(AfterCreate(p, b), i, b.name, Answered);
            !Linked(p2.db, a, id) && Linked(p2.db, b.name, id) && Agrees(p2.db, p2.working)
  {
    var pb := AfterCreate(p, b);
    CreateTracks(p, b);
    InsertKeepsRelation(p.db, b);
    NewLoginIsNowhere(p, b.name, i);
    SaveTracks(pb, i, b.name, Answered);
    var p2 := AfterSave(pb, i, b.name, Answered);
    assert p2.lost == map[];
    AgreesIff(p2);
    assert a !in Elements(p.working[i].users) && b.name !in Elements(p.working[i].users);
  }

  lemma LinksNeedCredentials(db: Db)
    requires Refs(db)
    ensures forall n, id | Linked(db, n, id) :: id in db.clientCredentials
  {
  }

  lemma UsersEdited(users: seq<string>, name: string, add: bool)
    requires NoRepeats(users) && (add ==> name !in users)
    ensures var edited := if add then users + [name] else Without(users, name);
            && NoRepeats(edited)
            && Elements(edited) == if add then Elements(users) + {name} else Elements(users) - {name}
  {
    WithoutMeans(users, name);
    if add {
      assert forall n :: n in users + [name] <==> n in users || n == name;
    }
  }

  // ---- rows ----

  // The answers to a row's requests: to the creation of the route, and to the update
  // of each entry, if one is sent.
  datatype RowAnswers = RowAnswers(create: Answer, updates: seq<Answer>)

  // The request for a row's route.
  function RouteOf(row: Row): RouteRequest {
    RouteRequest(0, row.name, row.host, row.port, "fixed", 1, 65535, "ssh", row.credential, row.ownership, NoFingerprint)
  }

  // The entries of a snapshot keep their credential and caption.
  predicate SameEntries(before: seq<Working>, after: seq<Working>) {
    && |after| == |before|
    && forall k | 0 <= k < |before| :: after[k].id == before[k].id && after[k].caption == before[k].caption
  }

  // The entry's list has to change for this login, so a request is sent.
  predicate NeedsEdit(w: Working, name: string, selected: set<int>) {
    (w.id in selected) != (name in w.users)
  }

  // The request for an entry is answered with success.
  predicate Succeeds(w: Working, answer: Answer) {
    answer.Answered? && w.caption != ""
  }

  // Of the first i entries, each that has to change succeeds.
  ghost predicate EditsSucceed(working: seq<Working>, name: string, selected: set<int>, answers: seq<Answer>, i: nat) {
    forall k | 0 <= k < i && k < |working| && k < |answers| && NeedsEdit(working[k], name, selected) :: Succeeds(working[k], answers[k])
  }

  lemma NextEntry(start: Page, p: Page, name: string, selected: set<int>, answers: seq<Answer>, i: nat)
    requires Partway(start, p, name, selected, i) && i < |p.working| == |answers|
    requires EditsSucceed(start.working, name, selected, answers, i)
    ensures var done := NeedsEdit(p.working[i], name, selected) ==> Succeeds(p.working[i], answers[i]);
            (done <==> EditsSucceed(start.working, name, selected, answers, i + 1))
            && (!done ==> !EditsSucceed(start.working, name, selected, answers, |answers|))
  {
    assert p.working[i] == start.working[i];
  }

  // What reconciling one login leaves alone, over any number of update requests.
  ghost predicate Reconciled(p: Page, p': Page, name: string) {
    && OnlyLinks(p.db, p'.db) && |p'.working| == |p.working|
    && SameEntries(p.working, p'.working)
    && (forall k, n | 0 <= k < |p.working| && n != name :: n in p'.working[k].users <==> n in p.working[k].users)
    && (forall id | id in p'.lost :: p'.lost[id] == name || (id in p.lost && p'.lost[id] == p.lost[id]))
  }

  lemma ReconciledSelf(p: Page, name: string)
    ensures Reconciled(p, p, name)
  {
  }

  lemma ReconciledTwice(p: Page, q: Page, r: Page, name: string)
    requires Reconciled(p, q, name) && Reconciled(q, r, name)
    ensures Reconciled(p, r, name)
  {
  }

  // How one request changes the snapshot and the lost edits.
  ghost predicate SavedOne(p: Page, p': Page, i: nat, name: string, answer: Answer)
    requires i < |p.working| && |p'.working| == |p.working|
  {
    var ok := TakesEffect(p.working[i], answer) && answer.Answered?;
    && (forall k | 0 <= k < |p.working| && k != i :: p'.working[k] == p.working[k])
    && (ok ==> (name in p'.working[i].users <==> name !in p.working[i].users))
    && (ok ==> p'.working[i].id !in p'.lost)
    && (!ok ==> p'.working == p.working)
    && (!answer.Unanswered? ==> forall id | id in p'.lost :: id in p.lost && p'.lost[id] == p.lost[id])
    && (forall id | id in p'.lost :: (id in p.lost && p'.lost[id] == p.lost[id]) || id == p.working[i].id)
  }

  lemma SaveShape(p: Page, i: nat, name: string, answer: Answer)
    requires i < |p.working| && NoRepeats(p.working[i].users)
    requires UpdateCredential(p.db, p.working[i].id, EchoOf(p.working[i]), Toggled(p.working[i].users, name), "").Some?
    ensures var p' := AfterSave(p, i, name, answer);
            && |p'.working| == |p.working| && p'.working[i].id == p.working[i].id && p'.working[i].caption == p.working[i].caption
            && SavedOne(p, p', i, name, answer)
            && (forall n | n != name :: n in p'.working[i].users <==> n in p.working[i].users)
            && (forall id | id in p'.lost :: p'.lost[id] == name || (id in p.lost && p'.lost[id] == p.lost[id]))
  {
    ToggledMembers(p.working[i].users, name);
  }

  lemma SaveReconciles(p: Page, i: nat, name: string, answer: Answer)
    requires Tracks(p) && i < |p.working| && Known(p.db.servers, name)
    ensures var p' := AfterSave(p, i, name, answer);
            |p'.working| == |p.working| && Reconciled(p, p', name) && SavedOne(p, p', i, name, answer)
  {
    SaveTracks(p, i, name, answer);
    assert EntryTracks(p, p.working[i]);
    SaveShape(p, i, name, answer);
    var p' := AfterSave(p, i, name, answer);
    forall k, n | 0 <= k < |p.working| && n != name ensures n in p'.working[k].users <==> n in p.working[k].users {
      if k != i {
        assert p'.working[k] == p.working[k];
      }
    }
    forall k | 0 <= k < |p.working| ensures p'.working[k].id == p.working[k].id && p'.working[k].caption == p.working[k].caption {
      if k != i {
        assert p'.working[k] == p.working[k];
      }
    }
  }

  lemma ToggledMembers(users: seq<string>, name: string)
    requires NoRepeats(users)
    ensures forall n :: n in Toggled(users, name) <==> if n == name then n !in users else n in users
  {
    ToggledMeans(users, name);
    forall n ensures n in Toggled(users, name) <==> if n == name then n !in users else n in users {
      assert n in Elements(Toggled(users, name)) <==> n in Toggled(users, name);
      assert n in Elements(users) <==> n in users;
    }
  }

  class ImportPage {
    const store: Store
    var working: seq<Working>
    ghost var lost: map<int, string>

    ghost function Now(): Page
      reads this, store
    {
      Page(store.db, working, lost)
    }

    ghost predicate Valid()
      reads this, store
    {
      Tracks(Now())
    }

    // The page copies the server's list before it starts.
    constructor (store: Store, working: seq<Working>)
      requires Sound(store.db) && Agrees(store.db, working)
      ensures Valid() && this.store == store && Now() == Page(store.db, working, map[])
    {
      FreshCopyTracks(store.db, working);
      this.store, this.working, this.lost := store, working, map[];
    }

    // One update request, which adds or removes one login.
    method Save(i: nat, name: string, answer: Answer) returns (ok: bool)
      requires Valid() && i < |working| && Known(store.db.servers, name)
      modifies this, store
      ensures Valid() && Now() == AfterSave(old(Now()), i, name, answer)
      ensures ok <==> TakesEffect(old(working)[i], answer) && answer.Answered?
    {
      SaveTracks(Now(), i, name, answer);
      var w := working[i];
      var users := if name in w.users then Without(w.users, name) else w.users + [name];
      if answer.Rejected? || w.caption == "" {
        return false;
      }
      ok := store.UpdateClientCredential(w.id, EchoOf(w), users, "");
      if answer.Unanswered? {
        lost := lost[w.id := name];
        return false;
      }
      working := working[i := w.(users := users)];
      lost := lost - {w.id};
    }

    /** reconcileClientCredentials: when every request is answered, the snapshot has
        the login at exactly the selected credentials, and so has the server, but for
        edits of this very login that were lost before. Other logins stay in the
        snapshot as they are. */
    method Reconcile(name: string, selected: set<int>, answers: seq<Answer>) returns (ok: bool)
      requires Valid() && Known(store.db.servers, name) && |answers| == |working|
      modifies this, store
      ensures Valid() && Reconciled(old(Now()), Now(), name)
      ensures ok ==> Selected(Now(), name, selected, |working|) && LostKept(old(Now()), Now())
      ensures ok ==> forall id | id in store.db.clientCredentials ::
                (Linked(store.db, name, id) <==> id in selected) <==> !(id in lost && lost[id] == name)
      ensures OnlyTowards(old(Now()), Now(), name, selected)
      ensures ok <==> EditsSucceed(old(working), name, selected, answers, |answers|)
      ensures (forall k | 0 <= k < |answers| :: answers[k] != Unanswered) ==> LostKept(old(Now()), Now())
    {
      ghost var start := Now();
      ReconciledSelf(start, name);
      for i := 0 to |working|
        invariant |working| == |old(working)| && Valid() && Known(store.db.servers, name)
        invariant Partway(start, Now(), name, selected, i)
        invariant EditsSucceed(start.working, name, selected, answers, i)
      {
        NextEntry(start, Now(), name, selected, answers, i);
        if (working[i].id in selected) != (name in working[i].users) {
          ghost var p := Now();
          SaveReconciles(p, i, name, answers[i]);
          ok := Save(i, name, answers[i]);
          RequestProgress(start, p, Now(), i, name, selected, answers[i]);
          if !ok {
            return;
          }
        }
      }
      SelectedIsTowards(start, Now(), name, selected);
      SnapshotTells(Now(), name, selected);
      return true;
    }

    // One row: create the route, then link its credentials.
    method ImportRow(row: Row, answers: RowAnswers) returns (ok: bool)
      requires Valid() && |answers.updates| == |working| && LostAreKnown(Now())
      modifies this, store
      ensures Valid() && RowImported(old(Now()), Now(), row, ok)
      ensures RowIsExact(old(Now()), Now(), row, answers, ok)
      ensures AllAnswered(answers) ==> LostKept(old(Now()), Now())
    {
      RowRejected(Now(), row);
      RouteIsCreatable(store.db, row);
      var valid := Validate(RouteOf(row));
      if answers.create.Rejected? || valid.Err? || (row.credential.Some? && row.credential.value !in store.db.serverCredentials) {
        RowRefused(Now(), row, answers);
        return false;
      }
      ok := store.UpsertServer(valid.value);
      if !ok {
        RowRefused(Now(), row, answers);
        return;
      }
      ghost var before, created := old(Now()), Now();
      RouteIsInserted(before.db, row, created.db);
      CreateTracks(before, valid.value);
      InsertKeepsRelation(before.db, valid.value);
      RowOnlyCreated(before, created, row);
      if answers.create.Unanswered? {
        RowCreated(before, created, created, row, answers, false);
        return false;
      }
      ok := Reconcile(row.name, row.clients, answers.updates);
      RowReconciled(before, created, Now(), row, ok);
      RowCreated(before, created, Now(), row, answers, ok);
    }

    ghost predicate Ran(start: Page, rows: seq<Row>, answers: seq<RowAnswers>, results: seq<bool>, i: nat)
      reads this, store
    {
      && Valid() && |working| == |start.working| && AnswersFit(answers, |working|)
      && RunState(start, Now(), rows, answers, results, i) && RunIsExact(start, Now(), rows, answers, results, i)
    }

    method ImportNext(rows: seq<Row>, answers: seq<RowAnswers>, results: seq<bool>, i: nat, ghost start: Page) returns (more: seq<bool>)
      requires Ran(start, rows, answers, results, i) && i < |rows|
      modifies this, store
      ensures Ran(start, rows, answers, more, i + 1)
    {
      ghost var before := Now();
      RunStateMeans(start, before, rows, answers, results, i);
      var ok := ImportRow(rows[i], answers[i]);
      RunNext(start, before, Now(), rows, answers, results, i, ok);
      RunExactNext(start, before, Now(), rows, answers, results, i, ok);
      more := results + [ok];
    }

    // The row loop of runImport.
    method RunRows(rows: seq<Row>, answers: seq<RowAnswers>, ghost start: Page) returns (results: seq<bool>)
      requires Ran(start, rows, answers, [], 0)
      modifies this, store
      ensures Ran(start, rows, answers, results, |rows|)
    {
      results := [];
      for i := 0 to |rows|
        invariant Ran(start, rows, answers, results, i)
      {
        results := ImportNext(rows, answers, results, i, start);
      }
    }

    /** runImport; the results say which rows succeeded. */
    method Run(rows: seq<Row>, answers: seq<RowAnswers>) returns (results: seq<bool>)
      requires Valid() && lost == map[] && |answers| == |rows| && AnswersFit(answers, |working|)
      modifies this, store
      ensures Valid() && |results| == |rows|
      ensures AgreementTells(Now(), answers) && ImportOutcome(old(Now()).db, Now().db, rows, results)
      ensures RunIsExact(old(Now()), Now(), rows, answers, results, |rows|)
    {
      ghost var start := Now();
      RunStarts(start, rows, answers);
      RunExactStarts(start, rows, answers);
      results := RunRows(rows, answers, start);
      RunEnds(start, Now(), rows, answers, results);
    }
  }

  // ---- which rows succeed ----

  // The route a row describes.
  function NewRoute(row: Row): Server {
    Server(row.name, row.host, if row.port == 0 then 22 else row.port, Fixed, 1, 65535, true, row.credential, SshServer, NoHash)
  }

  // The request for a row's route reaches the server and is acceptable there.
  ghost predicate Creates(row: Row, answer: Answer, credentials: set<int>) {
    !answer.Rejected? && Acceptable(RouteOf(row)) && CredentialExists(NewRoute(row), credentials)
  }

  // Every update the row needs is answered with success.
  predicate Links(working: seq<Working>, row: Row, answers: RowAnswers) {
    forall k | 0 <= k < |working| && k < |answers.updates| && working[k].id in row.clients :: Succeeds(working[k], answers.updates[k])
  }

  // Exactly what one row does to the routes, and exactly when it succeeds.
  ghost predicate RowIsExact(p: Page, p': Page, row: Row, answers: RowAnswers, ok: bool) {
    var created := !Known(p.db.servers, row.name) && Creates(row, answers.create, p.db.serverCredentials);
    && (ok <==> created && answers.create.Answered? && Links(p.working, row, answers))
    && p'.db.serverCredentials == p.db.serverCredentials && SameEntries(p.working, p'.working)
    && if created then p'.db.nextServer == p.db.nextServer + 1 && p'.db.servers == p.db.servers[p.db.nextServer := NewRoute(row)]
       else p'.db.servers == p.db.servers
  }

  lemma NameIsFreeIff(db: Db, q: RouteRequest)
    requires q.id == 0 && 0 !in db.servers
    ensures Savable(db, q) <==> !Known(db.servers, q.name)
  {
    if id :| id in db.servers && db.servers[id].name == q.name {
      assert Named(db.servers, q.name, id);
    }
  }

  lemma RouteIsCreatable(db: Db, row: Row)
    requires Sound(db)
    ensures var q := RouteOf(row);
            && (Validate(q).Ok? <==> Acceptable(q))
            && (Validate(q).Ok? ==>
                  && Validate(q).value.credential == row.credential && Validate(q).value.name == row.name && Validate(q).value.id == 0
                  && (Upsert(db, Validate(q).value).Ok? <==> !Known(db.servers, row.name)))
  {
    var q := RouteOf(row);
    AcceptedIff(q);
    if Validate(q).Ok? {
      SavedIs(db, q);
      AcceptedRowIs(q, true, NoHash);
      ValidatedIsRoute(q, true, NoHash);
      NameIsFreeIff(db, q);
    }
  }

  lemma RouteIsInserted(db: Db, row: Row, db': Db)
    requires Sound(db) && Validate(RouteOf(row)).Ok? && Upsert(db, Validate(RouteOf(row)).value) == Ok(db')
    ensures db' == db.(servers := db.servers[db.nextServer := NewRoute(row)], nextServer := db.nextServer + 1)
  {
    SavedIs(db, RouteOf(row));
  }

  lemma RowRefused(p: Page, row: Row, answers: RowAnswers)
    requires Known(p.db.servers, row.name) || !Creates(row, answers.create, p.db.serverCredentials)
    ensures RowIsExact(p, p, row, answers, false)
  {
  }

  // A new login is in no list, so exactly the listed credentials need an edit.
  lemma EditsOfANewLogin(p: Page, row: Row, answers: RowAnswers)
    requires Tracks(p) && !Known(p.db.servers, row.name) && |answers.updates| == |p.working|
    ensures EditsSucceed(p.working, row.name, row.clients, answers.updates, |answers.updates|) <==> Links(p.working, row, answers)
  {
    forall k | 0 <= k < |p.working|
      ensures NeedsEdit(p.working[k], row.name, row.clients) <==> p.working[k].id in row.clients
    {
      NewLoginIsNowhere(p, row.name, k);
    }
  }

  lemma RowCreated(p: Page, created: Page, p': Page, row: Row, answers: RowAnswers, ok: bool)
    requires Tracks(p) && !Known(p.db.servers, row.name) && Creates(row, answers.create, p.db.serverCredentials)
    requires created == p.(db := p.db.(servers := p.db.servers[p.db.nextServer := NewRoute(row)], nextServer := p.db.nextServer + 1))
    requires OnlyLinks(created.db, p'.db) && SameEntries(p.working, p'.working) && |answers.updates| == |p.working|
    requires ok <==> answers.create.Answered? && EditsSucceed(p.working, row.name, row.clients, answers.updates, |answers.updates|)
    ensures RowIsExact(p, p', row, answers, ok)
  {
    EditsOfANewLogin(p, row, answers);
  }

  // One of the first i rows of this login reaches the server and is acceptable there.
  ghost predicate Appeared(rows: seq<Row>, answers: seq<RowAnswers>, credentials: set<int>, name: string, i: nat) {
    exists k :: 0 <= k < i && AppearsAt(rows, answers, credentials, name, k)
  }

  ghost predicate AppearsAt(rows: seq<Row>, answers: seq<RowAnswers>, credentials: set<int>, name: string, k: nat) {
    k < |rows| && k < |answers| && rows[k].name == name && Creates(rows[k], answers[k].create, credentials)
  }

  lemma AppearedNext(rows: seq<Row>, answers: seq<RowAnswers>, credentials: set<int>, name: string, i: nat)
    ensures Appeared(rows, answers, credentials, name, i + 1)
            <==> Appeared(rows, answers, credentials, name, i) || AppearsAt(rows, answers, credentials, name, i)
  {
  }

  // Row k is the first of a new login.
  ghost predicate CreatesFirst(start: Page, rows: seq<Row>, answers: seq<RowAnswers>, k: nat)
    requires k < |rows|
  {
    var credentials := start.db.serverCredentials;
    && !Known(start.db.servers, rows[k].name)
    && AppearsAt(rows, answers, credentials, rows[k].name, k) && !Appeared(rows, answers, credentials, rows[k].name, k)
  }

  // The first such row of a new login, with every answer it needs.
  ghost predicate RowSucceeds(start: Page, rows: seq<Row>, answers: seq<RowAnswers>, k: nat)
    requires k < |rows| == |answers|
  {
    CreatesFirst(start, rows, answers, k) && answers[k].create.Answered? && Links(start.working, rows[k], answers[k])
  }

  // The login names after the first i rows.
  ghost predicate NamesAfter(start: Page, p: Page, rows: seq<Row>, answers: seq<RowAnswers>, i: nat) {
    forall n :: Known(p.db.servers, n)
      <==> Known(start.db.servers, n) || Appeared(rows, answers, start.db.serverCredentials, n, i)
  }

  predicate RoutesKept(before: map<int, Server>, after: map<int, Server>) {
    forall id | id in before :: id in after && after[id] == before[id]
  }

  ghost predicate HasRoute(servers: map<int, Server>, row: Row) {
    exists id :: id in servers && servers[id] == NewRoute(row)
  }

  // A route that was not there before is one that a first row of a new login describes.
  ghost predicate IsMeant(start: Page, route: Server, rows: seq<Row>, answers: seq<RowAnswers>, i: nat)
    requires i <= |rows|
  {
    exists k :: 0 <= k < i && CreatesFirst(start, rows, answers, k) && route == NewRoute(rows[k])
  }

  // The routes after the first i rows: those of before, and one for each new login.
  ghost predicate RoutesAfter(start: Page, p: Page, rows: seq<Row>, answers: seq<RowAnswers>, i: nat)
    requires i <= |rows|
  {
    && RoutesKept(start.db.servers, p.db.servers)
    && (forall id | id in p.db.servers && id !in start.db.servers :: IsMeant(start, p.db.servers[id], rows, answers, i))
    && (forall k | 0 <= k < i && CreatesFirst(start, rows, answers, k) :: HasRoute(p.db.servers, rows[k]))
  }

  /** Exactly which rows succeed, and the routes they leave. */
  ghost predicate RunIsExact(start: Page, p: Page, rows: seq<Row>, answers: seq<RowAnswers>, results: seq<bool>, i: nat) {
    && i <= |rows| == |answers| && |results| == i
    && p.db.serverCredentials == start.db.serverCredentials && SameEntries(start.working, p.working)
    && NamesAfter(start, p, rows, answers, i) && RoutesAfter(start, p, rows, answers, i)
    && forall k | 0 <= k < i :: results[k] <==> RowSucceeds(start, rows, answers, k)
  }

  lemma InsertedNames(before: map<int, Server>, id: int, row: Server)
    requires id !in before
    ensures forall n :: Known(before[id := row], n) <==> Known(before, n) || n == row.name
  {
    var after := before[id := row];
    assert Named(after, row.name, id);
    forall n ensures Known(after, n) <==> Known(before, n) || n == row.name {
      if s :| Named(before, n, s) {
        assert Named(after, n, s);
      }
      if s :| Named(after, n, s) && s != id {
        assert Named(before, n, s);
      }
    }
  }

  lemma NamesNext(start: Page, before: Page, after: Page, rows: seq<Row>, answers: seq<RowAnswers>, i: nat)
    requires i < |rows| && NamesAfter(start, before, rows, answers, i)
    requires forall n :: Known(after.db.servers, n) <==>
               Known(before.db.servers, n) || AppearsAt(rows, answers, start.db.serverCredentials, n, i)
    ensures NamesAfter(start, after, rows, answers, i + 1)
  {
    forall n ensures Known(after.db.servers, n)
                     <==> Known(start.db.servers, n) || Appeared(rows, answers, start.db.serverCredentials, n, i + 1)
    {
      AppearedNext(rows, answers, start.db.serverCredentials, n, i);
    }
  }

  // Row i is the first of its login exactly if it is acceptable and the login is not known yet.
  lemma FirstIff(start: Page, before: Page, rows: seq<Row>, answers: seq<RowAnswers>, i: nat)
    requires i < |rows| && NamesAfter(start, before, rows, answers, i)
    ensures CreatesFirst(start, rows, answers, i)
            <==> !Known(before.db.servers, rows[i].name) && AppearsAt(rows, answers, start.db.serverCredentials, rows[i].name, i)
  {
  }

  lemma MeantLater(start: Page, route: Server, rows: seq<Row>, answers: seq<RowAnswers>, i: nat)
    requires i < |rows| && (IsMeant(start, route, rows, answers, i) || (CreatesFirst(start, rows, answers, i) && route == NewRoute(rows[i])))
    ensures IsMeant(start, route, rows, answers, i + 1)
  {
  }

  lemma RoutesStay(start: Page, before: Page, after: Page, rows: seq<Row>, answers: seq<RowAnswers>, i: nat)
    requires i < |rows| && RoutesAfter(start, before, rows, answers, i) && after.db.servers == before.db.servers
    requires !CreatesFirst(start, rows, answers, i)
    ensures RoutesAfter(start, after, rows, answers, i + 1)
  {
    forall id | id in after.db.servers && id !in start.db.servers ensures IsMeant(start, after.db.servers[id], rows, answers, i + 1) {
      MeantLater(start, after.db.servers[id], rows, answers, i);
    }
  }

  lemma RoutesGrow(start: Page, before: Page, after: Page, rows: seq<Row>, answers: seq<RowAnswers>, i: nat)
    requires i < |rows| && RoutesAfter(start, before, rows, answers, i) && CreatesFirst(start, rows, answers, i)
    requires before.db.nextServer !in before.db.servers
    requires after.db.servers == before.db.servers[before.db.nextServer := NewRoute(rows[i])]
    ensures RoutesAfter(start, after, rows, answers, i + 1)
  {
    forall id | id in after.db.servers && id !in start.db.servers ensures IsMeant(start, after.db.servers[id], rows, answers, i + 1) {
      MeantLater(start, after.db.servers[id], rows, answers, i);
    }
    forall k | 0 <= k < i + 1 && CreatesFirst(start, rows, answers, k) ensures HasRoute(after.db.servers, rows[k]) {
      if k == i {
        assert after.db.servers[before.db.nextServer] == NewRoute(rows[k]);
      } else {
        assert HasRoute(before.db.servers, rows[k]);
        var id :| id in before.db.servers && before.db.servers[id] == NewRoute(rows[k]);
        assert after.db.servers[id] == NewRoute(rows[k]);
      }
    }
  }

  // One row, on a page where the rows before it are done.
  lemma RowNext(start: Page, before: Page, after: Page, rows: seq<Row>, answers: seq<RowAnswers>, i: nat, ok: bool)
    requires Tracks(before) && i < |rows| == |answers| && before.db.serverCredentials == start.db.serverCredentials
    requires NamesAfter(start, before, rows, answers, i) && RoutesAfter(start, before, rows, answers, i)
    requires RowIsExact(before, after, rows[i], answers[i], ok)
    ensures NamesAfter(start, after, rows, answers, i + 1) && RoutesAfter(start, after, rows, answers, i + 1)
    ensures ok <==> CreatesFirst(start, rows, answers, i) && answers[i].create.Answered? && Links(before.working, rows[i], answers[i])
  {
    FirstIff(start, before, rows, answers, i);
    if CreatesFirst(start, rows, answers, i) {
      InsertedNames(before.db.servers, before.db.nextServer, NewRoute(rows[i]));
      RoutesGrow(start, before, after, rows, answers, i);
    } else {
      RoutesStay(start, before, after, rows, answers, i);
    }
    NamesNext(start, before, after, rows, answers, i);
  }

  lemma SameLinks(a: seq<Working>, b: seq<Working>, row: Row, answers: RowAnswers)
    requires SameEntries(a, b)
    ensures Links(a, row, answers) <==> Links(b, row, answers)
  {
  }

  lemma RunExactNext(
    start: Page, before: Page, after: Page, rows: seq<Row>, answers: seq<RowAnswers>, results: seq<bool>, i: nat, ok: bool)
    requires Tracks(before) && i < |rows| && RunIsExact(start, before, rows, answers, results, i)
    requires RowIsExact(before, after, rows[i], answers[i], ok)
    ensures RunIsExact(start, after, rows, answers, results + [ok], i + 1)
  {
    SameLinks(start.working, before.working, rows[i], answers[i]);
    RowNext(start, before, after, rows, answers, i, ok);
  }

  lemma RunExactStarts(p: Page, rows: seq<Row>, answers: seq<RowAnswers>)
    requires |rows| == |answers|
    ensures RunIsExact(p, p, rows, answers, [], 0)
  {
    assert forall n :: !Appeared(rows, answers, p.db.serverCredentials, n, 0);
  }

  // ---- whole imports ----

  // A reconciliation that has dealt with the first i entries.
  ghost predicate Partway(start: Page, p: Page, name: string, selected: set<int>, i: nat) {
    && Reconciled(start, p, name) && Selected(p, name, selected, i) && LostKept(start, p)
    && forall k | i <= k < |p.working| :: p.working[k] == start.working[k]
  }

  // The first entries have the login exactly where it is selected.
  ghost predicate Selected(p: Page, name: string, selected: set<int>, i: nat) {
    i <= |p.working| && forall k | 0 <= k < i :: name in p.working[k].users <==> p.working[k].id in selected
  }

  // No edit was lost that was not lost before.
  ghost predicate LostKept(p: Page, p': Page) {
    forall id | id in p'.lost :: id in p.lost && p'.lost[id] == p.lost[id]
  }

  // Every entry, and every lost edit, was only moved towards the selection.
  ghost predicate OnlyTowards(p: Page, p': Page, name: string, selected: set<int>)
    requires |p'.working| == |p.working|
  {
    && (forall k | 0 <= k < |p.working| ::
          (name in p'.working[k].users <==> p.working[k].id in selected)
          || (name in p'.working[k].users <==> name in p.working[k].users))
    && (forall id | id in p'.lost ::
          || (id in p.lost && p'.lost[id] == p.lost[id])
          || exists k :: 0 <= k < |p.working| && p.working[k].id == id && (name in p.working[k].users <==> id !in selected))
  }

  lemma SelectedIsTowards(start: Page, p: Page, name: string, selected: set<int>)
    requires Reconciled(start, p, name) && Selected(p, name, selected, |p.working|) && LostKept(start, p)
    ensures OnlyTowards(start, p, name, selected)
  {
  }

  // The request for entry i, on a page where the entries before it are done.
  lemma RequestProgress(start: Page, p: Page, p': Page, i: nat, name: string, selected: set<int>, answer: Answer)
    requires Partway(start, p, name, selected, i) && i < |p.working| == |p'.working|
    requires SavedOne(p, p', i, name, answer) && Reconciled(p, p', name)
    requires p.working[i].id in selected <==> name !in p.working[i].users
    ensures Reconciled(start, p', name) && OnlyTowards(start, p', name, selected)
    ensures TakesEffect(p.working[i], answer) && answer.Answered? ==> Partway(start, p', name, selected, i + 1)
    ensures !answer.Unanswered? ==> LostKept(start, p')
  {
    ReconciledTwice(start, p, p', name);
    RequestIsTowards(start, p, p', i, name, selected, answer);
  }

  lemma RequestIsTowards(start: Page, p: Page, p': Page, i: nat, name: string, selected: set<int>, answer: Answer)
    requires Partway(start, p, name, selected, i) && i < |p.working| == |p'.working| == |start.working|
    requires SavedOne(p, p', i, name, answer)
    requires p.working[i].id in selected <==> name !in p.working[i].users
    ensures OnlyTowards(start, p', name, selected)
  {
    assert start.working[i] == p.working[i];
    forall k | 0 <= k < |p.working|
      ensures (name in p'.working[k].users <==> start.working[k].id in selected)
              || (name in p'.working[k].users <==> name in start.working[k].users)
    {
      assert p.working[k].id == start.working[k].id;
    }
  }

  // What the server has for a login follows from the snapshot and the lost edits.
  lemma SnapshotTells(p: Page, name: string, selected: set<int>)
    requires Tracks(p)
    requires forall k | 0 <= k < |p.working| :: name in p.working[k].users <==> p.working[k].id in selected
    ensures forall id | id in p.db.clientCredentials ::
              (Linked(p.db, name, id) <==> id in selected) <==> !(id in p.lost && p.lost[id] == name)
  {
    forall id | id in p.db.clientCredentials
      ensures (Linked(p.db, name, id) <==> id in selected) <==> !(id in p.lost && p.lost[id] == name)
    {
      var k :| 0 <= k < |p.working| && p.working[k].id == id;
      assert EntryTracks(p, p.working[k]);
      assert name in p.working[k].users <==> name in Elements(p.working[k].users);
    }
  }

  predicate AllAnswered(answers: RowAnswers) {
    forall k | 0 <= k < |answers.updates| :: answers.updates[k] != Unanswered
  }

  // The import after the first i rows.
  ghost predicate RunState(start: Page, p: Page, rows: seq<Row>, answers: seq<RowAnswers>, results: seq<bool>, i: nat) {
    && i <= |rows| == |answers| && |results| == i
    && Imported(start, p, rows[..i], results) && (AnsweredSoFar(answers, i) ==> p.lost == map[])
  }

  lemma RunStarts(p: Page, rows: seq<Row>, answers: seq<RowAnswers>)
    requires Tracks(p) && p.lost == map[] && |rows| == |answers|
    ensures RunState(p, p, rows, answers, [], 0)
  {
    NothingImported(p);
    assert rows[..0] == [];
  }

  lemma RunStateMeans(start: Page, p: Page, rows: seq<Row>, answers: seq<RowAnswers>, results: seq<bool>, i: nat)
    requires RunState(start, p, rows, answers, results, i)
    ensures LostAreKnown(p) && |p.working| == |start.working|
  {
  }

  lemma RunNext(
    start: Page, before: Page, after: Page, rows: seq<Row>, answers: seq<RowAnswers>, results: seq<bool>, i: nat, ok: bool)
    requires RunState(start, before, rows, answers, results, i) && i < |rows|
    requires RowImported(before, after, rows[i], ok) && (AllAnswered(answers[i]) ==> LostKept(before, after))
    ensures RunState(start, after, rows, answers, results + [ok], i + 1)
  {
    ImportedNext(start, before, after, rows[..i], results, rows[i], ok);
    assert rows[..i + 1] == rows[..i] + [rows[i]];
    NoneLost(before, after, answers, i);
  }

  lemma RunEnds(start: Page, p: Page, rows: seq<Row>, answers: seq<RowAnswers>, results: seq<bool>)
    requires Tracks(start) && start.lost == map[] && Tracks(p) && RunState(start, p, rows, answers, results, |rows|)
    ensures |results| == |rows| && ImportOutcome(start.db, p.db, rows, results) && AgreementTells(p, answers)
  {
    assert rows[..|rows|] == rows;
    AgreesIff(p);
    ImportedMeans(start, p, rows, results);
  }

  // Snapshot and server agree unless an edit is lost, and always if no answer was.
  ghost predicate AgreementTells(p: Page, answers: seq<RowAnswers>) {
    && (Agrees(p.db, p.working) <==> p.lost == map[])
    && (AnsweredSoFar(answers, |answers|) ==> Agrees(p.db, p.working))
  }

  // There is an answer for every request a row can send.
  predicate AnswersFit(answers: seq<RowAnswers>, entries: nat) {
    forall i | 0 <= i < |answers| :: |answers[i].updates| == entries
  }

  // No answer to an update was lost in the first rows.
  predicate AnsweredSoFar(answers: seq<RowAnswers>, i: nat)
    requires i <= |answers|
  {
    forall k | 0 <= k < i :: AllAnswered(answers[k])
  }

  lemma NoneLost(p: Page, p': Page, answers: seq<RowAnswers>, i: nat)
    requires i < |answers| && (AnsweredSoFar(answers, i) ==> p.lost == map[])
    requires AllAnswered(answers[i]) ==> LostKept(p, p')
    ensures AnsweredSoFar(answers, i + 1) ==> p'.lost == map[]
  {
    if AnsweredSoFar(answers, i + 1) {
      assert AnsweredSoFar(answers, i) && AllAnswered(answers[i]);
      assert forall id :: id !in p'.lost;
    }
  }

  // Lost edits are of logins that exist.
  ghost predicate LostAreKnown(p: Page) {
    forall id | id in p.lost :: Known(p.db.servers, p.lost[id])
  }

  // What one row does to the page and the store, whether or not it succeeds: nothing
  // if its login exists, else at most its own login appears, with credentials it lists.
  ghost predicate RowImported(p: Page, p': Page, row: Row, ok: bool) {
    && |p'.working| == |p.working| && p'.db.clientCredentials == p.db.clientCredentials
    && (forall n | Known(p.db.servers, n) :: Known(p'.db.servers, n))
    && (Known(p.db.servers, row.name) ==> !ok && p' == p)
    && (forall k | 0 <= k < |p.working| :: p'.working[k].id == p.working[k].id)
    && (forall k, n | 0 <= k < |p.working| && n != row.name :: n in p'.working[k].users <==> n in p.working[k].users)
    && (forall k | 0 <= k < |p.working| && row.name in p'.working[k].users ::
          row.name in p.working[k].users || p.working[k].id in row.clients)
    && (forall k | 0 <= k < |p.working| && row.name in p.working[k].users :: row.name in p'.working[k].users)
    && (forall id | id in p'.lost ::
          || (id in p.lost && p'.lost[id] == p.lost[id])
          || (!ok && p'.lost[id] == row.name && id in row.clients && !Known(p.db.servers, row.name) && Known(p'.db.servers, row.name)))
    && (ok ==> Known(p'.db.servers, row.name) && Selected(p', row.name, row.clients, |p.working|))
  }

  lemma RowRejected(p: Page, row: Row)
    ensures RowImported(p, p, row, false)
  {
  }

  lemma RowOnlyCreated(p: Page, p': Page, row: Row)
    requires p' == p.(db := p'.db) && p'.db.clientCredentials == p.db.clientCredentials
    requires !Known(p.db.servers, row.name) && forall n | Known(p.db.servers, n) :: Known(p'.db.servers, n)
    ensures RowImported(p, p', row, false)
  {
  }

  lemma RowReconciled(p: Page, created: Page, p': Page, row: Row, ok: bool)
    requires Tracks(p) && LostAreKnown(p) && !Known(p.db.servers, row.name)
    requires created == p.(db := created.db) && created.db.clientCredentials == p.db.clientCredentials
    requires Known(created.db.servers, row.name) && forall n | Known(p.db.servers, n) :: Known(created.db.servers, n)
    requires Reconciled(created, p', row.name) && OnlyTowards(created, p', row.name, row.clients)
    requires ok ==> Selected(p', row.name, row.clients, |p'.working|) && LostKept(created, p')
    ensures RowImported(p, p', row, ok)
  {
    forall k | 0 <= k < |p.working| ensures row.name !in p.working[k].users {
      NewLoginIsNowhere(p, row.name, k);
    }
  }

  // What the first rows did.
  ghost predicate Imported(start: Page, p: Page, rows: seq<Row>, results: seq<bool>) {
    && |results| == |rows| && |p.working| == |start.working|
    && p.db.clientCredentials == start.db.clientCredentials && LostAreKnown(p)
    && (forall n | Known(start.db.servers, n) :: Known(p.db.servers, n))
    && (forall k | 0 <= k < |p.working| :: p.working[k].id == start.working[k].id)
    && RowsSucceeded(start, p, rows, results)
    && OldUsersKept(start, p) && NewUsersListed(start, p, rows)
    && (forall id | id in p.lost :: NewAndListed(start, p.lost[id], id, rows))
  }

  ghost predicate RowsSucceeded(start: Page, p: Page, rows: seq<Row>, results: seq<bool>)
    requires |results| == |rows|
  {
    forall i | 0 <= i < |rows| && results[i] ::
      && !Known(start.db.servers, rows[i].name) && Known(p.db.servers, rows[i].name)
      && Selected(p, rows[i].name, rows[i].clients, |p.working|)
      && forall id | id in p.lost :: p.lost[id] != rows[i].name
  }

  ghost predicate OldUsersKept(start: Page, p: Page)
    requires |p.working| == |start.working|
  {
    forall k, n | 0 <= k < |p.working| && Known(start.db.servers, n) :: n in p.working[k].users <==> n in start.working[k].users
  }

  ghost predicate NewAndListed(start: Page, n: string, id: int, rows: seq<Row>) {
    !Known(start.db.servers, n) && exists i :: 0 <= i < |rows| && rows[i].name == n && id in rows[i].clients
  }

  ghost predicate NewUsersListed(start: Page, p: Page, rows: seq<Row>) {
    forall k, n | 0 <= k < |p.working| && n in p.working[k].users && !Known(start.db.servers, n) ::
      NewAndListed(start, n, p.working[k].id, rows)
  }

  lemma NothingImported(p: Page)
    requires Tracks(p) && p.lost == map[]
    ensures Imported(p, p, [], [])
  {
    forall k, n | 0 <= k < |p.working| && n in p.working[k].users ensures Known(p.db.servers, n) {
      assert EntryTracks(p, p.working[k]);
    }
  }

  lemma ListedLater(start: Page, n: string, id: int, rows: seq<Row>, row: Row)
    requires NewAndListed(start, n, id, rows)
    ensures NewAndListed(start, n, id, rows + [row])
  {
    var i :| 0 <= i < |rows| && rows[i].name == n && id in rows[i].clients;
    assert (rows + [row])[i] == rows[i];
  }

  lemma ListedNow(start: Page, id: int, rows: seq<Row>, row: Row)
    requires !Known(start.db.servers, row.name) && id in row.clients
    ensures NewAndListed(start, row.name, id, rows + [row])
  {
    assert (rows + [row])[|rows|] == row;
  }

  lemma NewUsersNext(start: Page, before: Page, after: Page, rows: seq<Row>, row: Row, ok: bool)
    requires |before.working| == |start.working|
    requires NewUsersListed(start, before, rows) && RowImported(before, after, row, ok)
    ensures NewUsersListed(start, after, rows + [row])
  {
    forall k, n | 0 <= k < |after.working| && n in after.working[k].users && !Known(start.db.servers, n)
      ensures NewAndListed(start, n, after.working[k].id, rows + [row])
    {
      if n in before.working[k].users {
        ListedLater(start, n, before.working[k].id, rows, row);
      } else {
        ListedNow(start, before.working[k].id, rows, row);
      }
    }
  }

  lemma LostNext(start: Page, before: Page, after: Page, rows: seq<Row>, row: Row, ok: bool)
    requires forall n | Known(start.db.servers, n) :: Known(before.db.servers, n)
    requires forall id | id in before.lost :: NewAndListed(start, before.lost[id], id, rows)
    requires LostAreKnown(before) && RowImported(before, after, row, ok)
    ensures forall id | id in after.lost :: NewAndListed(start, after.lost[id], id, rows + [row])
    ensures LostAreKnown(after)
  {
    forall id | id in after.lost
      ensures NewAndListed(start, after.lost[id], id, rows + [row]) && Known(after.db.servers, after.lost[id])
    {
      if id in before.lost && after.lost[id] == before.lost[id] {
        ListedLater(start, before.lost[id], id, rows, row);
      } else {
        ListedNow(start, id, rows, row);
      }
    }
  }

  lemma SucceededNext(start: Page, before: Page, after: Page, rows: seq<Row>, results: seq<bool>, row: Row, ok: bool)
    requires |results| == |rows| && RowsSucceeded(start, before, rows, results) && RowImported(before, after, row, ok)
    requires LostAreKnown(before) && forall n | Known(start.db.servers, n) :: Known(before.db.servers, n)
    ensures RowsSucceeded(start, after, rows + [row], results + [ok])
  {
    var rows', results' := rows + [row], results + [ok];
    forall i | 0 <= i < |rows'| && results'[i]
      ensures !Known(start.db.servers, rows'[i].name) && Known(after.db.servers, rows'[i].name)
      ensures Selected(after, rows'[i].name, rows'[i].clients, |after.working|)
      ensures forall id | id in after.lost :: after.lost[id] != rows'[i].name
    {
      if i < |rows| {
        assert rows'[i] == rows[i] && results'[i] == results[i];
        assert Known(before.db.servers, rows[i].name);
        StaysSelected(before, after, row, ok, rows[i].name, rows[i].clients);
      }
    }
  }

  // A login that exists keeps its place in the snapshot.
  lemma StaysSelected(before: Page, after: Page, row: Row, ok: bool, name: string, clients: set<int>)
    requires RowImported(before, after, row, ok) && Known(before.db.servers, name)
    requires Selected(before, name, clients, |before.working|)
    requires forall id | id in before.lost :: before.lost[id] != name
    ensures Selected(after, name, clients, |after.working|)
    ensures forall id | id in after.lost :: after.lost[id] != name
  {
  }

  lemma ImportedNext(start: Page, before: Page, after: Page, rows: seq<Row>, results: seq<bool>, row: Row, ok: bool)
    requires Imported(start, before, rows, results) && RowImported(before, after, row, ok)
    ensures Imported(start, after, rows + [row], results + [ok])
  {
    SucceededNext(start, before, after, rows, results, row, ok);
    NewUsersNext(start, before, after, rows, row, ok);
    LostNext(start, before, after, rows, row, ok);
    OldUsersNext(start, before, after, row, ok);
  }

  lemma OldUsersNext(start: Page, before: Page, after: Page, row: Row, ok: bool)
    requires |before.working| == |start.working| && OldUsersKept(start, before) && RowImported(before, after, row, ok)
    requires forall n | Known(start.db.servers, n) :: Known(before.db.servers, n)
    ensures OldUsersKept(start, after)
  {
    forall k, n | 0 <= k < |after.working| && Known(start.db.servers, n)
      ensures n in after.working[k].users <==> n in start.working[k].users
    {
      assert Known(before.db.servers, n);
      assert n in before.working[k].users <==> n in start.working[k].users;
    }
  }

  /** What an import means for the server's relation, whatever answers were lost. */
  ghost predicate ImportOutcome(before: Db, after: Db, rows: seq<Row>, results: seq<bool>)
    requires |results| == |rows|
  {
    // a successful row is for a new login, which ends with exactly its credentials
    && (forall i | 0 <= i < |rows| && results[i] ::
          && !Known(before.servers, rows[i].name) && Known(after.servers, rows[i].name)
          && forall id | id in after.clientCredentials :: Linked(after, rows[i].name, id) <==> id in rows[i].clients)
    // logins that existed before keep what they had
    && (forall n, id | Known(before.servers, n) && id in after.clientCredentials :: Linked(after, n, id) <==> Linked(before, n, id))
    // and nothing is granted that some row of that login does not list
    && (forall n, id | Linked(after, n, id) && !Known(before.servers, n) ::
          exists i :: 0 <= i < |rows| && rows[i].name == n && id in rows[i].clients)
    // no key and no password hash changes
    && after.clientCredentials == before.clientCredentials
  }

  lemma ImportedMeans(start: Page, p: Page, rows: seq<Row>, results: seq<bool>)
    requires Tracks(start) && start.lost == map[] && Tracks(p) && Imported(start, p, rows, results)
    ensures ImportOutcome(start.db, p.db, rows, results)
  {
    forall i | 0 <= i < |rows| && results[i]
      ensures forall id | id in p.db.clientCredentials :: Linked(p.db, rows[i].name, id) <==> id in rows[i].clients
    {
      SnapshotTells(p, rows[i].name, rows[i].clients);
    }
    forall n, id | Known(start.db.servers, n) && id in p.db.clientCredentials ensures Linked(p.db, n, id) <==> Linked(start.db, n, id) {
      OldLoginKept(start, p, rows, results, n, id);
    }
    forall n, id | Linked(p.db, n, id) && !Known(start.db.servers, n)
      ensures exists i :: 0 <= i < |rows| && rows[i].name == n && id in rows[i].clients
    {
      GrantIsListed(start, p, rows, results, n, id);
    }
  }

  lemma OldLoginKept(start: Page, p: Page, rows: seq<Row>, results: seq<bool>, n: string, id: int)
    requires Tracks(start) && start.lost == map[] && Tracks(p) && Imported(start, p, rows, results)
    requires Known(start.db.servers, n) && id in p.db.clientCredentials
    ensures Linked(p.db, n, id) <==> Linked(start.db, n, id)
  {
    var k :| 0 <= k < |p.working| && p.working[k].id == id;
    assert EntryTracks(p, p.working[k]) && EntryTracks(start, start.working[k]);
    assert n in p.working[k].users <==> n in Elements(p.working[k].users);
    assert n in start.working[k].users <==> n in Elements(start.working[k].users);
  }

  lemma GrantIsListed(start: Page, p: Page, rows: seq<Row>, results: seq<bool>, n: string, id: int)
    requires Tracks(p) && Imported(start, p, rows, results)
    requires Linked(p.db, n, id) && !Known(start.db.servers, n)
    ensures NewAndListed(start, n, id, rows)
  {
    LinksNeedCredentials(p.db);
    var k :| 0 <= k < |p.working| && p.working[k].id == id;
    assert EntryTracks(p, p.working[k]);
    assert n in p.working[k].users <==> n in Elements(p.working[k].users);
  }
}
