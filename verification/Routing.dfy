/** Which route a login name selects (store.go, ResolveServer), stated without
    reference to the order in which the rules are read, and the validation that
    keeps route tables well formed (api.go, handleUpsertServer). */
module Routing {
  import opened Wrappers
  import opened Decimal
  import opened Tables

  const PORT := "${PORT}"

  predicate HasSuffix(s: string, suffix: string) {
    |suffix| <= |s| && s[|s| - |suffix|..] == suffix
  }

  function TrimSuffix(s: string, suffix: string): string {
    if HasSuffix(s, suffix) then s[..|s| - |suffix|] else s
  }

  // The port a rule reads from a login name, as the scan computes it.
  function TryRule(r: Server, login: string): Option<int> {
    var prefix := TrimSuffix(r.name, PORT);
    if prefix == r.name || !(prefix <= login) then None
    else
      var text := login[|prefix|..];
      match Atoi(text)
      case None => None
      case Some(port) =>
        if Itoa(port) != text || port < r.portMin || port > r.portMax then None else Some(port)
  }

  // A rule prefix${PORT} selects login when login is that prefix followed by the
  // decimal print of an allowed port.
  predicate Matches(r: Server, login: string, port: int) {
    && r.mode == DynamicPort
    && HasSuffix(r.name, PORT)
    && r.portMin <= port <= r.portMax
    && login == r.name[..|r.name| - |PORT|] + Itoa(port)
  }

  ghost predicate RouteOk(r: Server) {
    r.mode == DynamicPort ==>
      && HasSuffix(r.name, PORT) && r.name != PORT
      && Occurrences(r.name, PORT) == 1
      && 1 <= r.portMin <= r.portMax <= 65535
  }

  ghost predicate RouteTableOk(servers: map<int, Server>) {
    UniqueNames(servers) && forall id | id in servers :: RouteOk(servers[id])
  }

  datatype Route = Route(id: int, port: int)

  predicate FixedMatch(servers: map<int, Server>, login: string, id: int) {
    id in servers && servers[id].mode == Fixed && servers[id].name == login
  }

  predicate RuleMatch(servers: map<int, Server>, login: string, id: int, port: int) {
    id in servers && Matches(servers[id], login, port)
  }

  /** The route of a login name: the fixed route of that very name if there is one,
      else the matching rule with the longest name, else none. */
  ghost predicate Resolves(servers: map<int, Server>, login: string, r: Option<Route>) {
    if exists id :: FixedMatch(servers, login, id) then
      r.Some? && FixedMatch(servers, login, r.value.id) && r.value.port == servers[r.value.id].port
    else if exists id, port :: RuleMatch(servers, login, id, port) then
      && r.Some? && RuleMatch(servers, login, r.value.id, r.value.port)
      && forall id, port | RuleMatch(servers, login, id, port) :: |servers[id].name| <= |servers[r.value.id].name|
    else r == None
  }

  lemma MatchIsTried(r: Server, login: string, port: int)
    requires RouteOk(r) && Matches(r, login, port)
    ensures TryRule(r, login) == Some(port)
  {
    var prefix := r.name[..|r.name| - |PORT|];
    assert login[|prefix|..] == Itoa(port);
    AtoiItoa(port);
  }

  lemma TriedIsMatch(r: Server, login: string)
    requires RouteOk(r) && r.mode == DynamicPort && TryRule(r, login).Some?
    ensures Matches(r, login, TryRule(r, login).value)
  {
    var prefix := r.name[..|r.name| - |PORT|];
    assert login == prefix + login[|prefix|..];
  }

  // A rule selects a login name for at most one port, the one the scan computes.
  lemma TryRuleMeans(r: Server, login: string, port: int)
    requires RouteOk(r) && r.mode == DynamicPort
    ensures TryRule(r, login) == Some(port) <==> Matches(r, login, port)
  {
    if Matches(r, login, port) {
      MatchIsTried(r, login, port);
    }
    if TryRule(r, login) == Some(port) {
      TriedIsMatch(r, login);
    }
  }

  lemma ItoaInjective(a: int, b: int)
    requires a >= 0 && b >= 0 && Itoa(a) == Itoa(b)
    ensures a == b
  {
    PrintNatInjective(a, b);
  }

  lemma SameLengthSameRule(servers: map<int, Server>, login: string, i: int, p: int, j: int, q: int)
    requires RouteTableOk(servers)
    requires RuleMatch(servers, login, i, p) && RuleMatch(servers, login, j, q)
    requires |servers[i].name| == |servers[j].name|
    ensures i == j && p == q
  {
    var a, b := servers[i].name, servers[j].name;
    var n := |a| - |PORT|;
    assert a[..n] == login[..n] == b[..n];
    assert a == a[..n] + PORT && b == b[..n] + PORT;
    assert login[n..] == Itoa(p) && login[n..] == Itoa(q);
    ItoaInjective(p, q);
  }

  /** A well-formed table gives every login name at most one route, so the way
      ORDER BY LENGTH breaks ties cannot matter. */
  lemma ResolutionIsUnique(servers: map<int, Server>, login: string, r: Option<Route>, s: Option<Route>)
    requires RouteTableOk(servers)
    requires Resolves(servers, login, r) && Resolves(servers, login, s)
    ensures r == s
  {
    if exists id :: FixedMatch(servers, login, id) {
    } else if exists id, port :: RuleMatch(servers, login, id, port) {
      SameLengthSameRule(servers, login, r.value.id, r.value.port, s.value.id, s.value.port);
    }
  }

  // ---- the rows of one scan ----

  const NUL := 0 as char

  predicate NulFree(s: string) { NUL !in s }

  // A UTF-8 continuation byte.
  predicate IsTail(c: char) { 0x80 <= c as int < 0xC0 }

  // SQLite's LENGTH of a text: its characters up to the first NUL. `lead` says that
  // the byte before starts a longer character.
  function SqlLength(s: string, lead: bool): nat {
    if s == [] || s[0] == NUL then 0
    else if lead && IsTail(s[0]) then SqlLength(s[1..], true)
    else 1 + SqlLength(s[1..], s[0] as int >= 0xC0)
  }

  // rows is one result of SELECT ... WHERE route_mode = 'dynamic_port' ORDER BY
  // LENGTH(proxy_user) DESC, with ties in any order.
  ghost predicate IsScan(servers: map<int, Server>, rows: seq<int>) {
    && (forall id | id in rows :: id in servers && servers[id].mode == DynamicPort)
    && (forall id | id in servers && servers[id].mode == DynamicPort :: id in rows)
    && (forall i, j | 0 <= i < j < |rows| :: SqlLength(servers[rows[i]].name, false) >= SqlLength(servers[rows[j]].name, false))
  }

  // The rows read before a scan ends or breaks off.
  ghost predicate IsPartOfScan(servers: map<int, Server>, rows: seq<int>) {
    exists rest :: IsScan(servers, rows + rest)
  }

  lemma {:induction false} SqlConcat(a: string, b: string, lead: bool)
    requires NulFree(a) && (b != [] ==> !IsTail(b[0]))
    ensures SqlLength(a + b, lead) == SqlLength(a, lead) + SqlLength(b, false)
  {
    if a == [] {
      assert a + b == b;
    } else {
      assert (a + b)[1..] == a[1..] + b;
      SqlConcat(a[1..], b, if lead && IsTail(a[0]) then true else a[0] as int >= 0xC0);
    }
  }

  // A rule name whose prefix goes on with digits is longer, in characters too.
  lemma LongerInCharacters(prefix: string, digits: string)
    requires NulFree(prefix) && digits != [] && forall c | c in digits :: IsDigit(c)
    ensures SqlLength(prefix + digits + PORT, false) > SqlLength(prefix + PORT, false)
  {
    SqlConcat(prefix, PORT, false);
    assert prefix + digits + PORT == prefix + (digits + PORT);
    assert IsDigit(digits[0]);
    SqlConcat(prefix, digits + PORT, false);
    SqlConcat(digits, PORT, false);
  }

  lemma PortIsDigits(port: int)
    requires port >= 0
    ensures forall c | c in Itoa(port) :: IsDigit(c)
  {
    ReadPrint(port);
  }

  // Two splits of one text.
  lemma LongerPrefix(short: string, x: string, long: string, y: string)
    requires short + x == long + y && |short| < |long|
    ensures var n := |long| - |short|; n <= |x| && long == short + x[..n]
  {
    var login := short + x;
    assert |login| == |long| + |y|;
    assert login[..|long|] == long;
    assert login[..|long|] == short + x[..|long| - |short|];
  }

  lemma NulFreePrefix(prefix: string, rest: string)
    requires NulFree(prefix + rest)
    ensures NulFree(prefix)
  {
    assert forall k | 0 <= k < |prefix| :: prefix[k] == (prefix + rest)[k];
  }

  lemma MatchSplits(r: Server, login: string, port: int) returns (prefix: string)
    requires RouteOk(r) && Matches(r, login, port)
    ensures r.name == prefix + PORT && login == prefix + Itoa(port) && port >= 0
  {
    prefix := r.name[..|r.name| - |PORT|];
  }

  // Of two rules that match a login, a longer one is longer in characters: what it
  // has more are digits of the login.
  lemma MatchesOrdered(a: Server, b: Server, login: string, p: int, q: int)
    requires RouteOk(a) && RouteOk(b) && Matches(a, login, p) && Matches(b, login, q)
    requires NulFree(login) && |a.name| < |b.name|
    ensures SqlLength(b.name, false) > SqlLength(a.name, false)
  {
    var short := MatchSplits(a, login, p);
    var long := MatchSplits(b, login, q);
    PrefixesOrdered(short, long, p, q);
  }

  lemma PrefixesOrdered(short: string, long: string, p: int, q: int)
    requires p >= 0 && short + Itoa(p) == long + Itoa(q) && NulFree(short + Itoa(p)) && |short| < |long|
    ensures SqlLength(long + PORT, false) > SqlLength(short + PORT, false)
  {
    LongerPrefix(short, Itoa(p), long, Itoa(q));
    var more := Itoa(p)[..|long| - |short|];
    NulFreePrefix(short, Itoa(p));
    PortIsDigits(p);
    LongerInCharacters(short, more);
  }

  const SHORT := Server([NUL] + PORT, "h", 0, DynamicPort, 1, 65535, true, None, SshServer, NoHash)
  const LONG := SHORT.(name := [NUL] + "1" + PORT)

  /** The guard matters: for a login with a NUL two matching rules can tie although one
      has the longer name, and a scan may yield the shorter one first. */
  lemma NulNamesTie()
    ensures var servers, login := map[1 := SHORT, 2 := LONG], [NUL] + "12";
            && UniqueNames(servers) && IsScan(servers, [1, 2])
            && RuleMatch(servers, login, 1, 12) && RuleMatch(servers, login, 2, 2)
            && !Resolves(servers, login, Some(Route(1, 12)))
  {
    var servers, login := map[1 := SHORT, 2 := LONG], [NUL] + "12";
    assert SHORT.name[..|SHORT.name| - |PORT|] == [NUL] && LONG.name[..|LONG.name| - |PORT|] == [NUL] + "1";
    assert PrintNat(12) == PrintNat(1) + [DigitChar(2)] == "12" && PrintNat(2) == "2";
    assert RuleMatch(servers, login, 1, 12) && RuleMatch(servers, login, 2, 2);
  }

  // ---- validation of a route before it is saved ----

  function Occurrences(s: string, t: string): nat
    requires t != []
  {
    if |s| < |t| then 0
    else if s[..|t|] == t then 1 + Occurrences(s[|t|..], t)
    else Occurrences(s[1..], t)
  }

  predicate OccursAt(s: string, t: string, i: nat) {
    i + |t| <= |s| && s[i..i + |t|] == t
  }

  // Occurrences of the port marker cannot overlap.
  lemma PortsApart(s: string, i: nat, j: nat)
    requires OccursAt(s, PORT, i) && OccursAt(s, PORT, j) && i < j
    ensures i + |PORT| <= j
  {
    forall m | i < m < i + |PORT| ensures s[m] != PORT[0] {
      assert s[m] == s[i..i + |PORT|][m - i];
    }
    assert s[j] == s[j..j + |PORT|][0];
  }

  lemma OccursLater(s: string, t: string, n: nat)
    requires n <= |s|
    ensures forall i: nat :: OccursAt(s[n..], t, i) <==> OccursAt(s, t, n + i)
  {
    forall i: nat ensures OccursAt(s[n..], t, i) <==> OccursAt(s, t, n + i) {
      assert n + i + |t| <= |s| ==> s[n..][i..i + |t|] == s[n + i..n + i + |t|];
    }
  }

  // A text contains another exactly when it is counted at least once.
  lemma {:induction false} CountedIff(s: string, t: string)
    requires t != []
    ensures Occurrences(s, t) > 0 <==> exists i: nat :: OccursAt(s, t, i)
  {
    if |s| < |t| {
    } else if s[..|t|] == t {
      assert OccursAt(s, t, 0);
    } else {
      CountedIff(s[1..], t);
      OccursLater(s, t, 1);
      if i: nat :| OccursAt(s, t, i) {
        assert i > 0 && OccursAt(s[1..], t, i - 1);
      }
      if i: nat :| OccursAt(s[1..], t, i) {
        assert OccursAt(s, t, 1 + i);
      }
    }
  }

  // The port marker stands at the end and nowhere else.
  ghost predicate MarkedAtEnd(s: string) {
    |s| >= |PORT| && forall i: nat :: OccursAt(s, PORT, i) <==> i == |s| - |PORT|
  }

  lemma MarkedTail(s: string)
    requires |s| > |PORT| && s[..|PORT|] != PORT
    ensures MarkedAtEnd(s) <==> MarkedAtEnd(s[1..])
  {
    OccursLater(s, PORT, 1);
    assert !OccursAt(s, PORT, 0);
    if MarkedAtEnd(s) {
      assert forall i: nat :: OccursAt(s[1..], PORT, i) <==> OccursAt(s, PORT, 1 + i);
    }
    if MarkedAtEnd(s[1..]) {
      forall i: nat ensures OccursAt(s, PORT, i) <==> i == |s| - |PORT| {
        if i > 0 {
          assert OccursAt(s[1..], PORT, i - 1) <==> OccursAt(s, PORT, 1 + (i - 1));
        }
      }
    }
  }

  // Two occurrences are counted twice.
  lemma CountsTwo(s: string)
    requires |s| > |PORT| && s[..|PORT|] == PORT && HasSuffix(s, PORT)
    ensures Occurrences(s, PORT) >= 2
  {
    var n := |s| - |PORT|;
    assert OccursAt(s, PORT, 0) && OccursAt(s, PORT, n);
    PortsApart(s, 0, n);
    OccursLater(s, PORT, |PORT|);
    assert OccursAt(s[|PORT|..], PORT, n - |PORT|);
    CountedIff(s[|PORT|..], PORT);
  }

  lemma {:induction false} MarkedIff(s: string)
    ensures Occurrences(s, PORT) == 1 && HasSuffix(s, PORT) <==> MarkedAtEnd(s)
  {
    var n := |PORT|;
    if |s| < n {
    } else if |s| == n {
      assert s[..n] == s && s[0..] == s;
      assert s[n..] == [];
      assert OccursAt(s, PORT, 0) <==> s == PORT;
    } else if s[..n] == PORT {
      assert OccursAt(s, PORT, 0);
      if HasSuffix(s, PORT) {
        CountsTwo(s);
      }
    } else {
      MarkedIff(s[1..]);
      MarkedTail(s);
      assert s[1..][|s| - 1 - n..] == s[|s| - n..];
    }
  }

  // The host key fingerprint of a request: none, or whether it has the right form.
  datatype Fingerprint = NoFingerprint | WellFormed | Malformed

  // The fields of a request that decide its route, or whether it is refused.
  datatype RouteRequest = RouteRequest(
    id: int, name: string, host: string, port: int, mode: string, portMin: int, portMax: int,
    kind: string, credential: Option<int>, ownership: string, fingerprint: Fingerprint)

  // The white space that strings.TrimSpace removes, in UTF-8.
  predicate IsSpace(s: string) {
    || (|s| == 1 && (s[0] == ' ' || 9 <= s[0] as int <= 13))
    || (|s| == 2 && s[0] as int == 0xC2 && (s[1] as int == 0x85 || s[1] as int == 0xA0))
    || (|s| == 3 && IsWideSpace(s[0] as int, s[1] as int, s[2] as int))
  }

  // U+1680, U+2000 to U+200A, U+2028, U+2029, U+202F, U+205F and U+3000.
  predicate IsWideSpace(a: int, b: int, c: int) {
    || (a == 0xE1 && b == 0x9A && c == 0x80)
    || (a == 0xE2 && b == 0x80 && (0x80 <= c <= 0x8A || c == 0xA8 || c == 0xA9 || c == 0xAF))
    || (a == 0xE2 && b == 0x81 && c == 0x9F)
    || (a == 0xE3 && b == 0x80 && c == 0x80)
  }

  // Between one and three bytes of white space at the front, or at the end.
  function SpaceAt(s: string, end: bool): nat {
    if |s| >= 1 && IsSpace(if end then s[|s| - 1..] else s[..1]) then 1
    else if |s| >= 2 && IsSpace(if end then s[|s| - 2..] else s[..2]) then 2
    else if |s| >= 3 && IsSpace(if end then s[|s| - 3..] else s[..3]) then 3
    else 0
  }

  function TrimLeft(s: string): string {
    var n := SpaceAt(s, false);
    if 0 < n <= |s| then TrimLeft(s[n..]) else s
  }

  // strings.TrimSpace
  function Trim(s: string): string {
    var n := SpaceAt(s, true);
    if 0 < n <= |s| then Trim(s[..|s| - n]) else TrimLeft(s)
  }

  function Joined(pieces: seq<string>): string {
    if pieces == [] then "" else Joined(pieces[..|pieces| - 1]) + pieces[|pieces| - 1]
  }

  predicate AllSpace(pieces: seq<string>) {
    forall i | 0 <= i < |pieces| :: IsSpace(pieces[i])
  }

  lemma {:induction false} JoinedFront(piece: string, pieces: seq<string>)
    ensures Joined([piece] + pieces) == piece + Joined(pieces)
  {
    var all := [piece] + pieces;
    if pieces == [] {
      assert all[..0] == [] && all[0] == piece;
    } else {
      assert all[..|all| - 1] == [piece] + pieces[..|pieces| - 1];
      JoinedFront(piece, pieces[..|pieces| - 1]);
    }
  }

  lemma JoinedBack(pieces: seq<string>, piece: string)
    ensures Joined(pieces + [piece]) == Joined(pieces) + piece
    ensures AllSpace(pieces) && IsSpace(piece) ==> AllSpace(pieces + [piece])
  {
    assert (pieces + [piece])[..|pieces|] == pieces;
  }

  // The first, or the last, n bytes are one white space character.
  predicate SpaceFirst(s: string, n: nat) { n <= |s| && IsSpace(s[..n]) }

  predicate SpaceLast(s: string, n: nat) { n <= |s| && IsSpace(s[|s| - n..]) }

  ghost predicate NoneFirst(s: string) { forall n :: !SpaceFirst(s, n) }

  ghost predicate NoneLast(s: string) { forall n :: !SpaceLast(s, n) }

  lemma SpaceIsShort(s: string)
    requires IsSpace(s)
    ensures 1 <= |s| <= 3
  {
  }

  lemma FirstFound(s: string)
    ensures var n := SpaceAt(s, false); if n > 0 then SpaceFirst(s, n) else NoneFirst(s)
  {
    forall k: nat | SpaceFirst(s, k) ensures SpaceAt(s, false) > 0 {
      SpaceIsShort(s[..k]);
    }
  }

  lemma LastFound(s: string)
    ensures var n := SpaceAt(s, true); if n > 0 then SpaceLast(s, n) else NoneLast(s)
  {
    forall k: nat | SpaceLast(s, k) ensures SpaceAt(s, true) > 0 {
      SpaceIsShort(s[|s| - k..]);
    }
  }

  // Without its first n bytes a text ends as before.
  lemma EndsAlike(s: string, n: nat)
    requires n <= |s| && NoneLast(s)
    ensures NoneLast(s[n..])
  {
    forall k: nat | k <= |s| - n ensures !SpaceLast(s[n..], k) {
      assert s[n..][|s| - n - k..] == s[|s| - k..];
      assert !SpaceLast(s, k);
    }
  }

  lemma {:induction false} TrimLeftMeans(s: string) returns (front: seq<string>)
    requires NoneLast(s)
    ensures s == Joined(front) + TrimLeft(s) && AllSpace(front)
    ensures NoneFirst(TrimLeft(s)) && NoneLast(TrimLeft(s))
  {
    var n := SpaceAt(s, false);
    FirstFound(s);
    if n == 0 {
      front := [];
    } else {
      EndsAlike(s, n);
      front := TrimLeftMeans(s[n..]);
      JoinedFront(s[..n], front);
      front := [s[..n]] + front;
    }
  }

  lemma {:induction false} TrimOnce(s: string, n: nat)
    requires n == SpaceAt(s, true) && 0 < n <= |s|
    ensures Trim(s) == Trim(s[..|s| - n])
  {
  }

  // One more piece behind.
  lemma PieceBehind(front: seq<string>, t: string, back: seq<string>, piece: string)
    requires AllSpace(back) && IsSpace(piece)
    ensures (Joined(front) + t + Joined(back)) + piece == Joined(front) + t + Joined(back + [piece])
    ensures AllSpace(back + [piece])
  {
    JoinedBack(back, piece);
  }

  /** Trimming removes white space characters at both ends until there is none left,
      and nothing else. */
  lemma {:induction false} TrimMeans(s: string) returns (front: seq<string>, back: seq<string>)
    ensures s == Joined(front) + Trim(s) + Joined(back) && AllSpace(front) && AllSpace(back)
    ensures NoneFirst(Trim(s)) && NoneLast(Trim(s))
  {
    var n := SpaceAt(s, true);
    LastFound(s);
    if n == 0 {
      front := TrimLeftMeans(s);
      back := [];
    } else {
      TrimOnce(s, n);
      front, back := TrimMeans(s[..|s| - n]);
      PieceBehind(front, Trim(s), back, s[|s| - n..]);
      back := back + [s[|s| - n..]];
    }
  }

  const OWNERSHIPS := {"", "pve_vm", "office_pve", "physical", "cloud", "network_device"}

  // An agent's route has no host, credential or fingerprint of its own.
  function ValidateKind(q: RouteRequest): Result<RouteRequest> {
    var q := if q.kind == "" then q.(ownership := Trim(q.ownership), kind := "ssh") else q.(ownership := Trim(q.ownership));
    if q.ownership !in OWNERSHIPS then Err("unknown ownership")
    else if q.kind != "ssh" && q.kind != "agent" then Err("unknown connection type")
    else if q.kind == "agent" && q.mode != "" && q.mode != "fixed" then Err("agent routes are fixed")
    else
      var q := if q.kind == "agent" then q.(host := "Windows Agent", credential := None, fingerprint := NoFingerprint) else q;
      if q.name == "" || q.host == "" then Err("login name and host are required") else Ok(q)
  }

  function ValidateFixed(q: RouteRequest): Result<RouteRequest> {
    if Occurrences(q.name, PORT) > 0 then Err("fixed login name contains the port marker")
    else
      var port := if q.port == 0 then 22 else q.port;
      if port < 1 || port > 65535 then Err("port out of range")
      else Ok(q.(mode := "fixed", port := port, portMin := 1, portMax := 65535))
  }

  function ValidateDynamic(q: RouteRequest): Result<RouteRequest> {
    if Occurrences(q.name, PORT) != 1 || !HasSuffix(q.name, PORT) || q.name == PORT then
      Err("dynamic login name must be a prefix and the port marker")
    else if q.portMin < 1 || q.portMax > 65535 || q.portMin > q.portMax then Err("port range")
    else Ok(q.(port := 0))
  }

  function ValidateMode(q: RouteRequest): Result<RouteRequest> {
    if q.mode == "" || q.mode == "fixed" then ValidateFixed(q)
    else if q.mode == "dynamic_port" then ValidateDynamic(q)
    else Err("unknown route mode")
  }

  // handleUpsertServer's rewriting of the request, or the message it refuses with.
  function Validate(q: RouteRequest): Result<RouteRequest> {
    match ValidateKind(q)
    case Err(e) => Err(e)
    case Ok(q) =>
      match ValidateMode(q)
      case Err(e) => Err(e)
      case Ok(q) => if q.fingerprint == Malformed then Err("malformed fingerprint") else Ok(q)
  }

  // The row UpsertServer writes for a validated request.
  function RowOf(q: RouteRequest, enabled: bool, hash: Hash): Server {
    var agent := q.kind == "agent";
    Server(q.name, q.host, if agent then 0 else q.port,
           if !agent && q.mode == "dynamic_port" then DynamicPort else Fixed,
           if q.portMin == 0 then 1 else q.portMin, if q.portMax == 0 then 65535 else q.portMax,
           enabled, if agent then None else q.credential,
           if agent then AgentServer else SshServer, hash)
  }

  // UpsertServer on the servers table: an insert when id is 0, else an update.
  function Upsert(db: Db, q: RouteRequest): Result<Db> {
    if exists id | id in db.servers :: id != q.id && db.servers[id].name == q.name then Err("login name exists")
    else if q.id == 0 then
      Ok(db.(servers := db.servers[db.nextServer := RowOf(q, true, NoHash)], nextServer := db.nextServer + 1))
    else if q.id !in db.servers then Err("no such server")
    else Ok(db.(servers := db.servers[q.id := RowOf(q, db.servers[q.id].enabled, db.servers[q.id].hash)]))
  }

  // ---- which requests are accepted, and the row they leave ----

  // A name without the port marker, or with the marker at the end after a prefix; a
  // port, or ports, from 1 to 65535. A port of 0 stands for the default.
  ghost predicate FixedRequest(q: RouteRequest) {
    && (q.mode == "" || q.mode == "fixed")
    && q.name != "" && (forall i: nat :: !OccursAt(q.name, PORT, i))
    && 0 <= q.port <= 65535
  }

  ghost predicate DynamicRequest(q: RouteRequest) {
    && q.mode == "dynamic_port"
    && MarkedAtEnd(q.name) && |q.name| > |PORT|
    && 1 <= q.portMin <= q.portMax <= 65535
  }

  ghost predicate Acceptable(q: RouteRequest) {
    && Trim(q.ownership) in OWNERSHIPS
    && if q.kind == "agent" then FixedRequest(q)
       else && (q.kind == "" || q.kind == "ssh") && q.host != "" && q.fingerprint != Malformed
            && (FixedRequest(q) || DynamicRequest(q))
  }

  // The row of an accepted request. An agent's route has neither port nor credential.
  function SavedRow(q: RouteRequest, enabled: bool, hash: Hash): Server {
    if q.kind == "agent" then
      Server(q.name, "Windows Agent", 0, Fixed, 1, 65535, enabled, None, AgentServer, hash)
    else if q.mode == "dynamic_port" then
      Server(q.name, q.host, 0, DynamicPort, q.portMin, q.portMax, enabled, q.credential, SshServer, hash)
    else
      Server(q.name, q.host, if q.port == 0 then 22 else q.port, Fixed, 1, 65535, enabled, q.credential, SshServer, hash)
  }

  lemma ModeAccepted(q: RouteRequest)
    requires q.name != ""
    ensures ValidateMode(q).Ok? <==> FixedRequest(q) || DynamicRequest(q)
    ensures ValidateFixed(q).Ok? && (q.mode == "" || q.mode == "fixed") <==> FixedRequest(q)
  {
    CountedIff(q.name, PORT);
    MarkedIff(q.name);
  }

  /** Exactly the acceptable requests pass validation. */
  lemma AcceptedIff(q: RouteRequest)
    ensures Validate(q).Ok? <==> Acceptable(q)
  {
    var k := ValidateKind(q);
    if k.Ok? {
      ModeAccepted(k.value);
    }
  }

  /** The row that is saved for an accepted request follows from the request alone. */
  lemma AcceptedRowIs(q: RouteRequest, enabled: bool, hash: Hash)
    requires Validate(q).Ok?
    ensures RowOf(Validate(q).value, enabled, hash) == SavedRow(q, enabled, hash)
    ensures Validate(q).value.credential == SavedRow(q, enabled, hash).credential
  {
    AcceptedIff(q);
  }

  // The store repeats part of the validation: whatever it is given, an agent's row is
  // fixed and has no port and no credential, and no port bound is 0.
  lemma StoredRowIs(q: RouteRequest, enabled: bool, hash: Hash)
    ensures var row := RowOf(q, enabled, hash);
            && (q.kind == "agent" ==> row.mode == Fixed && row.port == 0 && row.credential == None && row.kind == AgentServer)
            && (q.kind != "agent" ==>
                  && (row.mode == DynamicPort <==> q.mode == "dynamic_port")
                  && row.port == q.port && row.credential == q.credential && row.kind == SshServer)
            && row.portMin != 0 && row.portMax != 0
            && row.enabled == enabled && row.hash == hash && row.name == q.name && row.host == q.host
  {
  }

  lemma FixedIsRoute(q: RouteRequest, enabled: bool, hash: Hash)
    requires ValidateFixed(q).Ok?
    ensures var v := ValidateFixed(q).value; v.id == q.id && v.name == q.name && RowOf(v, enabled, hash).mode == Fixed
  {
  }

  lemma DynamicIsRoute(q: RouteRequest, enabled: bool, hash: Hash)
    requires ValidateDynamic(q).Ok? && q.kind != "agent"
    ensures var v := ValidateDynamic(q).value; v.id == q.id && v.name == q.name && RouteOk(RowOf(v, enabled, hash))
  {
  }

  lemma KindKeepsName(q: RouteRequest)
    requires ValidateKind(q).Ok?
    ensures var v := ValidateKind(q).value;
            v.id == q.id && v.name == q.name && (v.kind == "agent" ==> v.mode == "" || v.mode == "fixed")
  {
  }

  lemma ValidatedIsRoute(q: RouteRequest, enabled: bool, hash: Hash)
    requires Validate(q).Ok?
    ensures var v := Validate(q).value; v.id == q.id && v.name == q.name && RouteOk(RowOf(v, enabled, hash))
  {
    KindKeepsName(q);
    var k := ValidateKind(q).value;
    if k.mode == "" || k.mode == "fixed" {
      FixedIsRoute(k, enabled, hash);
    } else {
      DynamicIsRoute(k, enabled, hash);
    }
  }

  // One row written with a name no other row has.
  lemma WriteRow(servers: map<int, Server>, id: int, row: Server)
    requires RouteTableOk(servers) && RouteOk(row)
    requires forall j | j in servers && j != id :: servers[j].name != row.name
    ensures RouteTableOk(servers[id := row])
  {
  }

  // UpsertServer writes one row, whose name is free.
  lemma UpsertWrites(db: Db, v: RouteRequest)
    requires Upsert(db, v).Ok?
    ensures var id := if v.id == 0 then db.nextServer else v.id;
            var row := if v.id == 0 then RowOf(v, true, NoHash) else RowOf(v, db.servers[id].enabled, db.servers[id].hash);
            && Upsert(db, v).value == db.(servers := db.servers[id := row], nextServer := if v.id == 0 then db.nextServer + 1 else db.nextServer)
            && (v.id != 0 ==> id in db.servers)
            && forall j | j in db.servers && j != v.id :: db.servers[j].name != v.name
  {
  }

  // A route's credential, if it has one, is there.
  predicate CredentialExists(row: Server, credentials: set<int>) {
    row.credential.Some? ==> row.credential.value in credentials
  }

  // The table after an accepted request has been saved: one row is new, or replaced
  // but for its flag and token hash.
  function Saved(db: Db, q: RouteRequest): Db
    requires q.id == 0 || q.id in db.servers
  {
    if q.id == 0 then
      db.(servers := db.servers[db.nextServer := SavedRow(q, true, NoHash)], nextServer := db.nextServer + 1)
    else
      db.(servers := db.servers[q.id := SavedRow(q, db.servers[q.id].enabled, db.servers[q.id].hash)])
  }

  // The request names an existing route or none, and its login name is free.
  ghost predicate Savable(db: Db, q: RouteRequest) {
    && (q.id == 0 || q.id in db.servers)
    && forall id | id in db.servers && id != q.id :: db.servers[id].name != q.name
  }

  lemma SavedIs(db: Db, q: RouteRequest)
    requires Validate(q).Ok?
    ensures Upsert(db, Validate(q).value).Ok? <==> Savable(db, q)
    ensures Savable(db, q) ==> Upsert(db, Validate(q).value) == Ok(Saved(db, q))
  {
    var v := Validate(q).value;
    ValidatedIsRoute(q, true, NoHash);
    AcceptedRowIs(q, true, NoHash);
    if q.id in db.servers {
      AcceptedRowIs(q, db.servers[q.id].enabled, db.servers[q.id].hash);
    }
  }

  /** Saving a validated request keeps the table well formed, changes no other row
      and leaves the enabled flag and token hash of the row it updates. */
  lemma UpsertKeepsRoutes(db: Db, q: RouteRequest)
    requires RouteTableOk(db.servers) && Validate(q).Ok? && Upsert(db, Validate(q).value).Ok?
    requires db.nextServer !in db.servers && 0 !in db.servers
    ensures var db' := Upsert(db, Validate(q).value).value;
            var id := if q.id == 0 then db.nextServer else q.id;
            && RouteTableOk(db'.servers)
            && id in db'.servers
            && db'.servers[id] == (if q.id == 0 then SavedRow(q, true, NoHash) else SavedRow(q, db.servers[id].enabled, db.servers[id].hash))
            && (forall j | j != id :: (j in db'.servers <==> j in db.servers))
            && (forall j | j != id && j in db.servers :: db'.servers[j] == db.servers[j])
            && db' == db.(servers := db'.servers, nextServer := db'.nextServer)
  {
    var v := Validate(q).value;
    var id := if q.id == 0 then db.nextServer else q.id;
    ValidatedIsRoute(q, true, NoHash);
    UpsertWrites(db, v);
    var row := Upsert(db, v).value.servers[id];
    AcceptedRowIs(q, row.enabled, row.hash);
    ValidatedIsRoute(q, row.enabled, row.hash);
    assert row == RowOf(v, row.enabled, row.hash);
    WriteRow(db.servers, id, row);
  }
}
