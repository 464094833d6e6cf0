/** The rows the store keeps (store.go, enrollment.go, self_registration.go). A
    table is a map from its key; a value of type Db is the whole database at one
    moment, so a transaction maps one Db to the next. */
module Tables {
  import opened Wrappers

  // SHA-256 in hexadecimal, as an injective function of what is hashed: nothing
  // (an unset column), a secret, or a shared key's hash with a folded host name.
  datatype Hash = NoHash | OfSecret(secret: string) | OfHost(key: Hash, host: string)

  // A secret column: "" or text without the cipher prefix, text that carries the
  // prefix and decrypts, or text that carries it and does not.
  datatype Cell = Plain(text: string) | Sealed(nonce: nat, text: string) | Damaged

  datatype Kind = SshServer | AgentServer
  datatype Mode = Fixed | DynamicPort

  datatype Server = Server(
    name: string,              // proxy_user
    host: string,              // target_host
    port: int,                 // target_port
    mode: Mode,
    portMin: int,
    portMax: int,
    enabled: bool,
    credential: Option<int>,   // server_credential_id
    kind: Kind,
    hash: Hash)                // agent_token_hash

  // agent_enrollments, keyed by its unique token_hash, with the row's
  // agent_enrollment_credentials.
  datatype Enrollment = Enrollment(
    id: int, enabled: bool, used: bool, hostname: string, server: Option<int>, credentials: set<int>)

  // The one row of agent_registration_settings.
  datatype Settings = Settings(enabled: bool, address: string, hash: Hash, token: Cell)

  datatype AuthType = PublicKey | Password

  datatype ClientCredential = ClientCredential(
    caption: string, auth: AuthType, publicKey: Option<string>, passwordHash: Option<string>)

  datatype Db = Db(
    servers: map<int, Server>,
    nextServer: int,                         // AUTOINCREMENT never reuses a key
    serverCredentials: set<int>,
    clientCredentials: map<int, ClientCredential>,
    links: set<(int, int)>,                  // server_client_credentials
    enrollments: map<Hash, Enrollment>,
    nextEnrollment: int,
    settings: Option<Settings>,
    hosts: map<string, Option<int>>)         // agent_registration_hosts, NOCASE key

  // COLLATE NOCASE and strings.ToLower on ASCII text.
  function FoldChar(c: char): char {
    if 'A' <= c <= 'Z' then (c as int + 32) as char else c
  }

  function Fold(s: string): string {
    seq(|s|, i requires 0 <= i < |s| => FoldChar(s[i]))
  }

  // Equal, or the two cases of one ASCII letter.
  predicate SameLetter(c: char, d: char) {
    || c == d
    || ('A' <= c <= 'Z' && d as int == c as int + 32)
    || ('A' <= d <= 'Z' && c as int == d as int + 32)
  }

  // Two spellings of one name.
  predicate SameLetters(a: string, b: string) {
    |a| == |b| && forall i | 0 <= i < |a| :: SameLetter(a[i], b[i])
  }

  /** Two names fold alike exactly when they are two spellings of one name, and the
      folded name is the spelling without capitals. */
  lemma FoldMeans(a: string, b: string)
    ensures Fold(a) == Fold(b) <==> SameLetters(a, b)
    ensures Fold(a) == b <==> SameLetters(a, b) && forall i | 0 <= i < |b| :: !('A' <= b[i] <= 'Z')
  {
    forall i | 0 <= i < |a| && i < |b| ensures Fold(a)[i] == Fold(b)[i] <==> SameLetter(a[i], b[i]) {
    }
    if Fold(a) == Fold(b) {
      assert |Fold(a)| == |Fold(b)|;
      forall i | 0 <= i < |a| ensures SameLetter(a[i], b[i]) {
        assert Fold(a)[i] == Fold(b)[i];
      }
    }
    if SameLetters(a, b) && forall i | 0 <= i < |b| :: !('A' <= b[i] <= 'Z') {
      assert forall i | 0 <= i < |b| :: Fold(a)[i] == b[i];
    }
    if Fold(a) == b {
      assert |b| == |a|;
      assert forall i | 0 <= i < |b| :: b[i] == FoldChar(a[i]);
    }
  }

  ghost predicate UniqueNames(servers: map<int, Server>) {
    forall i, j | i in servers && j in servers && servers[i].name == servers[j].name :: i == j
  }

  // SELECT ... FROM servers WHERE proxy_user = ?
  ghost predicate Named(servers: map<int, Server>, name: string, id: int) {
    id in servers && servers[id].name == name
  }
}
