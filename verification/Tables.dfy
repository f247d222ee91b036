/**
 The tables and what one statement does to them. Every function here is one
 atomic step of the store; the class `Store.SQLite` performs the same steps on
 tables it updates in place.

 A row's instants are the ones read back from the table, in whole seconds.
 */
module Tables {
  import opened Prelude
  import opened Text
  import opened Config

  datatype Owner = Owner(issuer: string, subject: string)

  /** State and nonce given to the provider, and what the bridge remembers beside them. */
  datatype BackendState = BackendState(state: string, nonce: string, setup: bool, owner: Option<Owner>)

  datatype AuthRequest = AuthRequest(
    id: string, backend: string, backendState: BackendState, me: string, clientId: string, redirectUri: string,
    scope: string, clientState: string, challenge: string, challengeMethod: string, profile: Option<ProfileDoc>,
    expiresAt: int, createdAt: int)

  datatype ConsentRequest = ConsentRequest(
    id: string, csrfToken: string, me: string, clientId: string, redirectUri: string,
    scope: string, clientState: string, challenge: string, challengeMethod: string, profile: Option<ProfileDoc>,
    subject: string, expiresAt: int, createdAt: int)

  datatype AuthorizationCode = AuthorizationCode(
    codeHash: string, me: string, clientId: string, redirectUri: string, scope: string,
    challenge: string, challengeMethod: string, profile: Option<ProfileDoc>,
    expiresAt: int, createdAt: int, usedAt: Option<int>)

  datatype AccessToken = AccessToken(
    tokenHash: string, me: string, clientId: string, scope: string, profile: Option<ProfileDoc>,
    expiresAt: int, createdAt: int, revokedAt: Option<int>)

  datatype ManagedProfile = ManagedProfile(
    handle: string, issuer: string, subject: string, displayName: string, bio: string, websiteUrl: string,
    accent: string, customized: bool, createdAt: int, updatedAt: int)
  {
    function Holder(): Owner {
      Owner(issuer, subject)
    }
  }

  datatype AuditKind =
    | AuthRequestRejected | ProfileMetadataRejected | AuthRequestCreated | BackendLoginRejected
    | IdentityClaimRejected | ConsentRequired | AuthorizationCodeIssued | ConsentRejected | ConsentDenied
    | TokenExchangeRejected | AccessTokenIssued | CodeProfileRejected | CodeProfileReturned
    | AccessTokenRevoked | ManagedProfileUpdated

  datatype AuditEvent = AuditEvent(kind: AuditKind, subject: string, me: string, clientId: string, createdAt: int)

  datatype StoreError = NotFound | Used | Expired | Revoked | Conflict

  /** Codes and tokens are keyed by hash, profiles by handle without regard to case. */
  datatype Db = Db(
    requests: map<string, AuthRequest>,
    consents: map<string, ConsentRequest>,
    codes: map<string, AuthorizationCode>,
    tokens: map<string, AccessToken>,
    profiles: map<string, ManagedProfile>,
    audit: seq<AuditEvent>)

  const EMPTY: Db := Db(map[], map[], map[], map[], map[], [])

  // ---- Authorization requests ------------------------------------------------------

  function CreateAuthRequest(db: Db, row: AuthRequest): (Db, bool) {
    if row.id in db.requests then (db, false)
    else (db.(requests := db.requests[row.id := row.(expiresAt := Whole(row.expiresAt), createdAt := Whole(row.createdAt))]), true)
  }

  predicate HasState(row: AuthRequest, backend: string, state: string) {
    row.backend == backend && row.backendState.state == state
  }

  /** A row with this backend and state; which one, if there are several, is not specified. */
  ghost function FindRequest(rows: map<string, AuthRequest>, backend: string, state: string): (r: Option<string>)
    ensures r.Some? ==> r.value in rows && HasState(rows[r.value], backend, state)
    ensures r.None? ==> forall id :: id in rows ==> !HasState(rows[id], backend, state)
  {
    if id :| id in rows && HasState(rows[id], backend, state) then Some(id) else None
  }

  /** Valid up to and including the instant of expiry. */
  ghost function GetAuthRequest(db: Db, backend: string, state: string, now: int): Result<AuthRequest, StoreError> {
    match FindRequest(db.requests, backend, state)
    case None => Err(NotFound)
    case Some(id) => if now > db.requests[id].expiresAt then Err(Expired) else Ok(db.requests[id])
  }

  function DeleteAuthRequest(db: Db, id: string): Db {
    db.(requests := db.requests - {id})
  }

  // ---- Consent requests ----------------------------------------------------------------

  function CreateConsentRequest(db: Db, row: ConsentRequest): (Db, bool) {
    if row.id in db.consents then (db, false)
    else (db.(consents := db.consents[row.id := row.(expiresAt := Whole(row.expiresAt), createdAt := Whole(row.createdAt))]), true)
  }

  function GetConsentRequest(db: Db, id: string, now: int): Result<ConsentRequest, StoreError> {
    if id !in db.consents then Err(NotFound)
    else if !(now < db.consents[id].expiresAt) then Err(Expired)
    else Ok(db.consents[id])
  }

  function DeleteConsentRequest(db: Db, id: string): Db {
    db.(consents := db.consents - {id})
  }

  // ---- Authorization codes ----------------------------------------------------------------

  function CreateAuthorizationCode(db: Db, row: AuthorizationCode): (Db, bool) {
    if row.codeHash in db.codes then (db, false)
    else
      (db.(codes := db.codes[row.codeHash :=
           row.(expiresAt := Whole(row.expiresAt), createdAt := Whole(row.createdAt), usedAt := None)]), true)
  }

  /** The transaction that reads a code, rejects it when used or expired, and marks it used. */
  function ConsumeAuthorizationCode(db: Db, hash: string, now: int): (Db, Result<AuthorizationCode, StoreError>) {
    if hash !in db.codes then (db, Err(NotFound))
    else
      var row := db.codes[hash];
      if row.usedAt.Some? then (db, Err(Used))
      else if !(now < row.expiresAt) then (db, Err(Expired))
      else (db.(codes := db.codes[hash := row.(usedAt := Some(Whole(now)))]), Ok(row))
  }

  // ---- Access tokens -----------------------------------------------------------------------

  function CreateAccessToken(db: Db, row: AccessToken): (Db, bool) {
    if row.tokenHash in db.tokens then (db, false)
    else
      (db.(tokens := db.tokens[row.tokenHash :=
           row.(expiresAt := Whole(row.expiresAt), createdAt := Whole(row.createdAt), revokedAt := None)]), true)
  }

  function GetAccessToken(db: Db, hash: string, now: int): Result<AccessToken, StoreError> {
    if hash !in db.tokens then Err(NotFound)
    else
      var row := db.tokens[hash];
      if row.revokedAt.Some? then Err(Revoked)
      else if !(now < row.expiresAt) then Err(Expired)
      else Ok(row)
  }

  function RevokeAccessToken(db: Db, hash: string, now: int): Db {
    if hash in db.tokens && db.tokens[hash].revokedAt.None? then
      db.(tokens := db.tokens[hash := db.tokens[hash].(revokedAt := Some(Whole(now)))])
    else db
  }

  // ---- Managed profiles ------------------------------------------------------------------------

  ghost predicate Held(rows: map<string, ManagedProfile>, owner: Owner) {
    exists k :: k in rows && rows[k].Holder() == owner
  }

  ghost predicate OwnerTaken(db: Db, owner: Owner) {
    Held(db.profiles, owner)
  }

  /** Both the handle, without regard to case, and the owner are unique. */
  ghost function CreateManagedProfile(db: Db, row: ManagedProfile): (Db, bool) {
    if Lower(row.handle) in db.profiles || OwnerTaken(db, row.Holder()) then (db, false)
    else
      (db.(profiles := db.profiles[Lower(row.handle) :=
           row.(createdAt := Whole(row.createdAt), updatedAt := Whole(row.updatedAt))]), true)
  }

  function GetManagedProfileByHandle(db: Db, handle: string): Option<ManagedProfile> {
    if Lower(handle) in db.profiles then Some(db.profiles[Lower(handle)]) else None
  }

  /** A row held by this owner. */
  ghost function FindHeld(rows: map<string, ManagedProfile>, owner: Owner): (r: Option<ManagedProfile>)
    ensures r.Some? <==> Held(rows, owner)
    ensures r.Some? ==> r.value in rows.Values && r.value.Holder() == owner
  {
    if k :| k in rows && rows[k].Holder() == owner then Some(rows[k]) else None
  }

  ghost function GetManagedProfileByIdentity(db: Db, owner: Owner): (r: Option<ManagedProfile>)
    ensures r.Some? <==> OwnerTaken(db, owner)
    ensures r.Some? ==> r.value in db.profiles.Values && r.value.Holder() == owner
  {
    FindHeld(db.profiles, owner)
  }

  /** A row with the presentation of `p` and its own handle and creation time. */
  function Presented(row: ManagedProfile, p: ManagedProfile): ManagedProfile {
    row.(displayName := p.displayName, bio := p.bio, websiteUrl := p.websiteUrl, accent := p.accent,
         customized := p.customized, updatedAt := Whole(p.updatedAt))
  }

  function Rewritten(rows: map<string, ManagedProfile>, p: ManagedProfile): map<string, ManagedProfile> {
    map k | k in rows :: if rows[k].Holder() == p.Holder() then Presented(rows[k], p) else rows[k]
  }

  ghost function UpdateManagedProfile(db: Db, p: ManagedProfile): (Db, bool) {
    (db.(profiles := Rewritten(db.profiles, p)), OwnerTaken(db, p.Holder()))
  }

  // ---- Audit and cleanup ------------------------------------------------------------------------

  function Audit(db: Db, kind: AuditKind, subject: string, me: string, clientId: string, now: int): Db {
    db.(audit := db.audit + [AuditEvent(kind, subject, me, clientId, Whole(now))])
  }

  datatype CleanupPart = Requests | Consents | Codes | Tokens

  /** One of the four deletes of the periodic cleanup, with the clock value it was given. */
  function Purge(db: Db, part: CleanupPart, at: int): Db {
    match part
    case Requests => db.(requests := map k | k in db.requests && !(db.requests[k].expiresAt <= Whole(at)) :: db.requests[k])
    case Consents => db.(consents := map k | k in db.consents && !(db.consents[k].expiresAt <= Whole(at)) :: db.consents[k])
    case Codes => db.(codes := map k | k in db.codes && !(db.codes[k].expiresAt <= Whole(at) || db.codes[k].usedAt.Some?) :: db.codes[k])
    case Tokens => db.(tokens := map k | k in db.tokens && !(db.tokens[k].expiresAt <= Whole(at)) :: db.tokens[k])
  }

  // ---- Uniqueness ----------------------------------------------------------------------------------

  ghost predicate UniqueStates(rows: map<string, AuthRequest>) {
    forall a, b :: a in rows && b in rows && rows[a].backendState.state == rows[b].backendState.state ==> a == b
  }

  /** Profiles sit under their own handle and every owner has at most one. */
  ghost predicate ProfilesKeyed(rows: map<string, ManagedProfile>) {
    && (forall k :: k in rows ==> k == Lower(rows[k].handle))
    && (forall a, b :: a in rows && b in rows && rows[a].Holder() == rows[b].Holder() ==> a == b)
  }

  lemma FoundByState(db: Db, id: string, state: string)
    requires UniqueStates(db.requests) && id in db.requests && db.requests[id].backendState.state == state
    ensures FindRequest(db.requests, db.requests[id].backend, state) == Some(id)
  {
    var r := FindRequest(db.requests, db.requests[id].backend, state);
    if r.None? {
      assert HasState(db.requests[id], db.requests[id].backend, state);
    }
  }

  lemma FoundByOwner(db: Db, k: string)
    requires ProfilesKeyed(db.profiles) && k in db.profiles
    ensures GetManagedProfileByIdentity(db, db.profiles[k].Holder()) == Some(db.profiles[k])
  {
    assert OwnerTaken(db, db.profiles[k].Holder());
  }
}
