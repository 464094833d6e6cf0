/** The stored registration token (self_registration.go): what saving, moving and
    disabling do to the one row of settings, and when its token can still be read. */
module SelfRegistration {
  import opened Wrappers
  import opened Tables
  import opened EnrollmentTokens
  import opened Secrets

  // Text that is made of bytes, as tokens and addresses are.
  function AsText(s: string): Option<Text> {
    if forall i | 0 <= i < |s| :: s[i] as int < 256 then
      Some(seq(|s|, i requires 0 <= i < |s| && s[i] as int < 256 => s[i] as Octet))
    else None
  }

  // What the stored cell holds: the token's text, or nothing that can be read.
  function StoredToken(s: Settings): Option<Text> {
    match Decrypt(s.token)
    case Some(t) => AsText(t)
    case None => None
  }

  // An empty token goes with no hash; any other one names the stored address and
  // the secret whose hash is stored.
  predicate TokenReadable(s: Settings) {
    match StoredToken(s)
    case None => false
    case Some(t) =>
      if t == [] then s.hash == NoHash
      else
        match ParseEnrollmentToken(t)
        case None => false
        case Some(e) => e.server == s.address && s.hash == OfSecret(e.secret)
  }

  predicate SettingsReadable(s: Option<Settings>) {
    s.Some? ==> TokenReadable(s.value)
  }

  datatype Draft = Draft(address: Text, token: Text, secret: Text)

  // The token to save: the one supplied, if it names the address, or a new one.
  function DraftOf(supplied: Option<Text>, url: Text, random: Text): Option<Draft> {
    match AgentServerURL(url)
    case None => None
    case Some(address) =>
      match supplied
      case None => Some(Draft(address, EnrollmentToken(address, random), random))
      case Some(token) =>
        match ParseEnrollmentToken(token)
        case None => None
        case Some(e) => if e.server == address then Some(Draft(address, token, e.secret)) else None
  }

  // handlePutSelfRegistration on the settings row.
  function Put(s: Option<Settings>, supplied: Option<Text>, url: Text, random: Text, nonce: nat): Option<Settings> {
    match DraftOf(supplied, url, random)
    case None => s
    case Some(d) => Some(Settings(true, d.address, OfSecret(d.secret), Encrypt(d.token, nonce)))
  }

  // The row and token an address save writes, if it can: the same secret, printed
  // with the new address.
  function MovedToken(s: Option<Settings>, address: Text): Option<Text> {
    match s
    case None => Some([])
    case Some(row) =>
      match StoredToken(row)
      case None => None
      case Some(t) =>
        if t == [] then Some([])
        else
          match ParseEnrollmentToken(t)
          case None => None
          case Some(e) => Some(EnrollmentToken(address, e.secret))
  }

  // handleSaveRegistrationAddress on the settings row.
  function Move(s: Option<Settings>, url: Text, nonce: nat): Option<Settings> {
    match AgentServerURL(url)
    case None => s
    case Some(address) =>
      match MovedToken(s, address)
      case None => s
      case Some(token) =>
        if s.None? then Some(Settings(false, address, NoHash, Encrypt(token, nonce)))
        else Some(s.value.(address := address, token := Encrypt(token, nonce)))
  }

  function Off(s: Option<Settings>): Option<Settings> {
    match s
    case None => None
    case Some(row) => Some(row.(enabled := false))
  }

  lemma TextIsText(t: Text)
    ensures AsText(t) == Some(t)
  {
    assert AsText(t).value == t;
  }

  lemma PrintedTokenIsNotEmpty(address: Text, secret: Text)
    ensures EnrollmentToken(address, secret) != []
  {
  }

  lemma PrintedReadableIff(address: Text, secret: Text, url: Text, enabled: bool, nonce: nat)
    requires IsSecret(secret) && AgentServerURL(url) == Some(address)
    ensures TokenReadable(Settings(enabled, address, OfSecret(secret), Encrypt(EnrollmentToken(address, secret), nonce)))
            <==> |address| <= MAX_ADDRESS
  {
    var t := EnrollmentToken(address, secret);
    PrintedTokenIsNotEmpty(address, secret);
    DecryptEncrypt(t, nonce);
    TextIsText(t);
    NormalisedTokenRoundTrip(url, secret);
  }

  /** A save with a supplied token is always readable; with a generated one it is
      exactly when the normalised address has at most 2048 bytes. */
  lemma PutIsReadableIff(s: Option<Settings>, supplied: Option<Text>, url: Text, random: Text, nonce: nat)
    requires IsSecret(random) && DraftOf(supplied, url, random).Some?
    ensures SettingsReadable(Put(s, supplied, url, random, nonce))
            <==> supplied.Some? || |DraftOf(supplied, url, random).value.address| <= MAX_ADDRESS
  {
    var d := DraftOf(supplied, url, random).value;
    if supplied.None? {
      PrintedReadableIff(d.address, random, url, true, nonce);
    } else {
      DecryptEncrypt(d.token, nonce);
      TextIsText(d.token);
      SuppliedIsNotEmpty(d.token);
    }
  }

  // A token that can be read and was made for this address.
  predicate NamesAddress(token: Text, address: Text) {
    ParseEnrollmentToken(token).Some? && ParseEnrollmentToken(token).value.server == address
  }

  // The supplied token's secret, or the one just drawn.
  function SecretToSave(supplied: Option<Text>, random: Text): Text
    requires supplied.Some? ==> ParseEnrollmentToken(supplied.value).Some?
  {
    if supplied.Some? then ParseEnrollmentToken(supplied.value).value.secret else random
  }

  /** A save is accepted exactly when the address is one and a supplied token names
      it. It enables the key, and stores the supplied token as it is, or a new one
      with the secret just drawn. */
  lemma PutStoresTheToken(s: Option<Settings>, supplied: Option<Text>, url: Text, random: Text, nonce: nat)
    ensures DraftOf(supplied, url, random).Some? <==>
              AgentServerURL(url).Some? && (supplied.Some? ==> NamesAddress(supplied.value, AgentServerURL(url).value))
    ensures DraftOf(supplied, url, random).None? ==> Put(s, supplied, url, random, nonce) == s
    ensures DraftOf(supplied, url, random).Some? ==>
              var address, s' := AgentServerURL(url).value, Put(s, supplied, url, random, nonce);
              && s'.Some? && s'.value.enabled && s'.value.address == address
              && s'.value.hash == OfSecret(SecretToSave(supplied, random))
              && StoredToken(s'.value) == if supplied.Some? then supplied else Some(EnrollmentToken(address, random))
  {
    var draft := DraftOf(supplied, url, random);
    if draft.Some? {
      DecryptEncrypt(draft.value.token, nonce);
      TextIsText(draft.value.token);
    }
  }

  lemma SuppliedIsNotEmpty(token: Text)
    requires ParseEnrollmentToken(token).Some?
    ensures token != []
  {
    if token == [] {
      SplitNoDot(token);
    }
  }

  /** An address save keeps the enabled flag, the hash and the secret. The token it
      stores is readable exactly when it is empty or the normalised address has at
      most 2048 bytes. */
  lemma MoveKeepsTheSecret(s: Option<Settings>, url: Text, nonce: nat)
    requires SettingsReadable(s) && AgentServerURL(url).Some?
    ensures var address, s' := AgentServerURL(url).value, Move(s, url, nonce);
            && s'.Some? && s'.value.address == address
            && s'.value.hash == (if s.Some? then s.value.hash else NoHash)
            && s'.value.enabled == (s.Some? && s.value.enabled)
            && (SettingsReadable(s') <==> s'.value.hash == NoHash || |address| <= MAX_ADDRESS)
  {
    var address := AgentServerURL(url).value;
    if s.Some? && s.value.hash != NoHash {
      var t := StoredToken(s.value).value;
      var e := ParseEnrollmentToken(t).value;
      ParsedTokenIsSound(t);
      PrintedReadableIff(address, e.secret, url, s.value.enabled, nonce);
    } else if s.Some? {
      assert StoredToken(s.value).Some?;
      assert MovedToken(s, address) == Some([]);
    }
  }

  // ---- any sequence of requests ----

  datatype Request =
    | PutRequest(supplied: Option<Text>, url: Text, random: Text, nonce: nat)
    | MoveRequest(url: Text, nonce: nat)
    | OffRequest

  function After(s: Option<Settings>, r: Request): Option<Settings> {
    match r
    case PutRequest(supplied, url, random, nonce) => Put(s, supplied, url, random, nonce)
    case MoveRequest(url, nonce) => Move(s, url, nonce)
    case OffRequest => Off(s)
  }

  function AfterAll(rs: seq<Request>): Option<Settings> {
    if rs == [] then None else After(AfterAll(rs[..|rs| - 1]), rs[|rs| - 1])
  }

  // The draws of the random source are secrets.
  predicate DrawsSecrets(rs: seq<Request>) {
    forall r | r in rs && r.PutRequest? :: IsSecret(r.random)
  }

  // What a whole sequence keeps: the row is readable, or its address is too long
  // and its token cannot be parsed, so that only a new save replaces it.
  predicate ReadableOrTooLong(s: Option<Settings>) {
    SettingsReadable(s)
    || (&& |s.value.address| > MAX_ADDRESS
        && StoredToken(s.value).Some? && StoredToken(s.value).value != []
        && ParseEnrollmentToken(StoredToken(s.value).value).None?)
  }

  lemma PrintedReadableOrTooLong(address: Text, secret: Text, url: Text, enabled: bool, nonce: nat)
    requires IsSecret(secret) && AgentServerURL(url) == Some(address)
    ensures ReadableOrTooLong(Some(Settings(enabled, address, OfSecret(secret), Encrypt(EnrollmentToken(address, secret), nonce))))
  {
    PrintedReadableIff(address, secret, url, enabled, nonce);
    var t := EnrollmentToken(address, secret);
    PrintedTokenIsNotEmpty(address, secret);
    DecryptEncrypt(t, nonce);
    TextIsText(t);
    NormalisedTokenRoundTrip(url, secret);
  }

  lemma RequestKeeps(s: Option<Settings>, r: Request)
    requires ReadableOrTooLong(s) && (r.PutRequest? ==> IsSecret(r.random))
    ensures ReadableOrTooLong(After(s, r))
  {
    match r
    case PutRequest(supplied, url, random, nonce) =>
      if DraftOf(supplied, url, random).Some? {
        PutIsReadableIff(s, supplied, url, random, nonce);
        if supplied.None? {
          PrintedReadableOrTooLong(AgentServerURL(url).value, random, url, true, nonce);
        }
      }
    case MoveRequest(url, nonce) =>
      if AgentServerURL(url).Some? && SettingsReadable(s) {
        MoveKeepsTheSecret(s, url, nonce);
        if s.Some? && s.value.hash != NoHash {
          var t := StoredToken(s.value).value;
          ParsedTokenIsSound(t);
          PrintedReadableOrTooLong(AgentServerURL(url).value, ParseEnrollmentToken(t).value.secret, url, s.value.enabled, nonce);
        }
      }
    case OffRequest =>
  }

  /** After any sequence of saves, address saves and disables the stored token is
      empty without a hash, or it reads back as the stored address and a secret with
      the stored hash, provided the stored address has at most 2048 bytes. */
  lemma {:induction false} StoredTokenStaysReadable(rs: seq<Request>)
    requires DrawsSecrets(rs)
    ensures ReadableOrTooLong(AfterAll(rs))
    ensures AfterAll(rs).Some? && |AfterAll(rs).value.address| <= MAX_ADDRESS ==> TokenReadable(AfterAll(rs).value)
  {
    if rs == [] {
    } else {
      StoredTokenStaysReadable(rs[..|rs| - 1]);
      RequestKeeps(AfterAll(rs[..|rs| - 1]), rs[|rs| - 1]);
    }
  }

  /** An https address of 2048 bytes: the generated token cannot be read back, and
      no later address save succeeds. */
  lemma LongAddressIsStuck(host: Text, random: Text, nonce: nat, url: Text)
    requires IsSecret(random)
    requires |host| == MAX_ADDRESS - 8 && forall c | c in host :: 'a' <= c <= 'z'
    ensures var s := Put(None, None, "https://" + host, random, nonce);
            s.Some? && !SettingsReadable(s) && Move(s, url, nonce) == s
  {
    NormalisationCanExceedTheLimit(host);
    var address := AgentServerURL("https://" + host).value;
    var s := Put(None, None, "https://" + host, random, nonce);
    NormalisedIsFixedPoint("https://" + host);
    PutIsReadableIff(None, None, "https://" + host, random, nonce);
    PrintedReadableOrTooLong(address, random, "https://" + host, true, nonce);
    assert ReadableOrTooLong(s);
  }
}
