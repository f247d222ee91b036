/**
 The request handlers, cut at their store calls. A request in flight is a
 `Proc`; `Advance` runs it up to and including its next store call (audit
 events go with the call before them) and says what it answers and what is
 left to do.
 */
module Handlers {
  import opened Prelude
  import opened Text
  import opened Library
  import opened Config
  import opened Handles
  import opened Discovery
  import opened Tables

  // ---- Requests and answers -------------------------------------------------------

  datatype AuthorizeQuery = AuthorizeQuery(responseType: string, state: string, scope: string, me: string,
                                           clientId: string, redirectUri: string, challenge: string, challengeMethod: string)

  /** What the network returned: the profile page, and the redirect URIs the client's page declares. */
  datatype Fetched = Fetched(page: Option<string>, declared: Option<seq<string>>)

  datatype CallbackQuery = CallbackQuery(state: string, error: string, code: string)

  datatype CodeForm = CodeForm(grantType: string, code: string, clientId: string, redirectUri: string, verifier: string)

  datatype ProfileForm = ProfileForm(credential: string, displayName: string, bio: string, websiteUrl: string, accent: string)

  /** The server the embedded tester discovered for a profile. */
  datatype Target = Target(me: string, authorizationEndpoint: string, issuer: string, tokenEndpoint: string, legacy: bool)

  datatype Request =
    | Setup
    | Authorize(query: AuthorizeQuery, fetched: Fetched)
    | Callback(backend: string, callback: CallbackQuery)
    | ConsentPage(id: string)
    | ConsentAnswer(id: string, csrf: string, decision: string)
    | Exchange(form: CodeForm)
    | CodeProfile(form: CodeForm)
    | Introspect(token: string)
    | Revoke(token: string)
    | EditProfile(edit: ProfileForm)
    | StartTest(target: Target)

  datatype OAuthCode = InvalidRequest | UnsupportedGrantType | InvalidGrant | ServerError

  datatype Reply =
    | HttpError(status: int)
    | OAuthError(status: int, error: OAuthCode)
    | ToProvider(backend: string, state: string, nonce: string)
    | ToConsent(id: string)
    | ToClient(redirectUri: string, code: string, clientState: string, issuer: string)
    | ToClientDenied(redirectUri: string, clientState: string)
    | ConsentForm(id: string, csrf: string, me: string, clientId: string, redirectUri: string, scope: string)
    | SetupPage(issuer: string, subject: string, credential: string, managed: Option<ManagedProfile>)
    | TokenGranted(token: string, scope: string, me: string, profile: Option<ProfileDoc>)
    | ProfileAnswer(me: string, profile: Option<ProfileDoc>)
    | TokenActive(clientId: string, scope: string, me: string, exp: int, iat: int, profile: Option<ProfileDoc>)
    | TokenInactive
    | RevokedOk
    | ToProfile(url: string)
    | TesterStarted(credential: string)

  /** An identity token the provider signed, once verified. */
  datatype IdToken = IdToken(nonce: string, identity: Identity)

  /**
   What the outside world contributes to one step: fresh secrets, whether the provider could be
   reached, which backend is tried next, and the identity token the provider returned.
   */
  datatype Choice = Choice(a: string, b: string, c: string, reachable: bool, backend: string, login: Option<IdToken>)

  // ---- Sealed values ------------------------------------------------------------------

  datatype Json = Text(text: string) | Number(number: int) | Flag(flag: bool)
  type Payload = map<string, Json>

  /** The tables, and every value sealed so far with its content. Nothing else can be opened. */
  datatype Shared = Shared(db: Db, vault: map<string, Payload>)

  function TextField(p: Payload, name: string): string {
    if name in p && p[name].Text? then p[name].text else ""
  }

  function NumberField(p: Payload, name: string): int {
    if name in p && p[name].Number? then p[name].number else 0
  }

  function SetupPayload(cfg: Config, owner: Owner, now: int): Payload {
    map["issuer" := Text(owner.issuer), "subject" := Text(owner.subject), "expires_at" := Number(Unix(now + cfg.requestTtl))]
  }

  function TesterPayload(cfg: Config, t: Target, state: string, verifier: string, now: int): Payload {
    map["state" := Text(state), "me" := Text(t.me), "authorization_endpoint" := Text(t.authorizationEndpoint),
        "authorization_issuer" := Text(t.issuer), "token_endpoint" := Text(t.tokenEndpoint), "code_verifier" := Text(verifier),
        "legacy_verification" := Flag(t.legacy), "expires_at" := Number(Unix(now + cfg.requestTtl))]
  }

  /** Opens a setup credential. */
  function OpenSetup(vault: map<string, Payload>, value: string, now: int): Option<Owner> {
    if value !in vault then None
    else
      var p := vault[value];
      var owner := Owner(TextField(p, "issuer"), TextField(p, "subject"));
      if owner.issuer == "" || owner.subject == "" || Unix(now) > NumberField(p, "expires_at") then None else Some(owner)
  }

  /** Opens a tester cookie, giving its state value. */
  function OpenTester(vault: map<string, Payload>, value: string, now: int): Option<string> {
    if value !in vault then None
    else
      var p := vault[value];
      if TextField(p, "state") == "" || Unix(now) > NumberField(p, "expires_at") then None else Some(TextField(p, "state"))
  }

  // ---- Requests in flight -----------------------------------------------------------------

  /** How the requested profile was recognised. */
  datatype Source = Static | Managed(handle: string) | Page

  datatype SignIn = SignIn(me: string, backend: string, profile: ProfileDoc, source: Source, owner: Option<Owner>)

  datatype Stage =
    | Looking
    | Renaming(row: ManagedProfile)
    | Creating(row: ManagedProfile)
    | Rechecking(row: ManagedProfile)
    | Suffixing(row: ManagedProfile)

  datatype Proc =
    | Arrived(request: Request)
    | Bound(query: AuthorizeQuery, signIn: SignIn)
    | Searching(callback: CallbackQuery, todo: set<string>)
    | Found(callback: CallbackQuery, row: AuthRequest)
    | Provisioning(requestId: string, stage: Stage, identity: Identity, issuer: string, credential: string)
    | Dropping(requestId: string)
    | Matched(consent: ConsentRequest, csrf: string, decision: string)
    | DroppingConsent(consentId: string)
    | Redeemed(code: AuthorizationCode, form: CodeForm)
    | Revoking(token: string)
    | Editing(profile: ManagedProfile, credential: string, checkedAt: int)

  /** Why a code was issued. */
  datatype Cause = Login(requestId: string, login: IdToken) | Approval(consentId: string, csrf: string)

  datatype Use = ToExchange | ToAnswer | ToWaste

  /** What one step did, for the history. */
  datatype Note =
    | Nothing
    | RequestStored(row: AuthRequest, query: Option<AuthorizeQuery>, source: Source)
    | ConsentStored(consent: ConsentRequest, requestId: string, login: IdToken)
    | CodeStored(code: AuthorizationCode, cause: Cause)
    | CodePresented(codeHash: string, use: Use)
    | TokenStored(token: AccessToken, codeHash: string, form: CodeForm)
    | CodeWasted(codeHash: string)
    | TokenRevoked(tokenHash: string)
    | SetupLogin(credential: string, owner: Owner)
    | HandleGiven(profile: ManagedProfile)
    | ProfileEdited(owner: Owner, credential: string, checkedAt: int)

  datatype Outcome = Outcome(shared: Shared, reply: Option<Reply>, next: Option<Proc>, note: Note)

  function Finish(s: Shared, reply: Reply): Outcome {
    Outcome(s, Some(reply), None, Nothing)
  }

  function Continue(s: Shared, next: Proc): Outcome {
    Outcome(s, None, Some(next), Nothing)
  }

  /** Answers now; the deferred statement `next` is still to run. */
  function Answer(s: Shared, reply: Reply, next: Proc): Outcome {
    Outcome(s, Some(reply), Some(next), Nothing)
  }

  function Log(s: Shared, kind: AuditKind, subject: string, me: string, clientId: string, now: int): Shared {
    s.(db := Audit(s.db, kind, subject, me, clientId, now))
  }

  // ---- /setup and /authorize ----------------------------------------------------------------

  ghost function OnSetup(cfg: Config, s: Shared, now: int, ch: Choice): Outcome {
    var backend := if cfg.managedEnabled then cfg.managedBackend else cfg.dynamicBackend;
    if !cfg.dynamicEnabled && !cfg.managedEnabled then Finish(s, HttpError(404))
    else if backend !in cfg.backends then Finish(s, HttpError(500))
    else if !ch.reachable then Finish(s, HttpError(502))
    else
      var row := AuthRequest(ch.a, backend, BackendState(ch.b, ch.c, true, None), "", "", "", "", "", "", "", None,
                             now + cfg.requestTtl, now);
      var (db, ok) := CreateAuthRequest(s.db, row);
      if !ok then Finish(s, HttpError(500))
      else Finish(s.(db := db), ToProvider(backend, ch.b, ch.c)).(note := RequestStored(db.requests[ch.a], None, Static))
  }

  predicate LegacySignIn(q: AuthorizeQuery) {
    q.responseType == "" && q.scope == "" && q.challenge == "" && q.challengeMethod == ""
  }

  ghost predicate ChallengeAccepted(cfg: Config, q: AuthorizeQuery) {
    if cfg.requirePkce && !LegacySignIn(q) then WellFormedChallenge(q.challenge, q.challengeMethod)
    else q.challenge == "" || q.challengeMethod == "S256"
  }

  function RequestedMe(cfg: Config, q: AuthorizeQuery): Option<string> {
    match ValidateHttpsUrl(cfg.lib, q.me, cfg.allowHttp)
    case None => None
    case Some(u) => CanonicalUrl(cfg.lib, cfg.lib.render(u))
  }

  datatype ManagedLookup = NotManaged | UnknownHandle | OwnedBy(row: ManagedProfile)

  /** Only characters that need no escaping occur in handles. */
  function ManagedProfileUrl(cfg: Config, handle: string): string {
    cfg.publicUrl + "/@" + handle
  }

  /** The handle an `/@` URL of this bridge asks for, empty for any other URL. */
  function HandleInUrl(cfg: Config, me: string): string {
    var u := cfg.lib.parse(me);
    var bridge := cfg.lib.parse(cfg.publicUrl);
    if u.None? || bridge.None? || !SameOrigin(u.value, bridge.value) then ""
    else if !("/@" <= u.value.path) || '/' in u.value.path[2..] then ""
    else Normalize(cfg.lib, u.value.path[2..])
  }

  function ManagedProfileForMe(cfg: Config, db: Db, me: string): ManagedLookup {
    if !cfg.managedEnabled || HandleInUrl(cfg, me) == "" then NotManaged
    else
      match GetManagedProfileByHandle(db, HandleInUrl(cfg, me))
      case None => UnknownHandle
      case Some(row) => if me == ManagedProfileUrl(cfg, row.handle) then OwnedBy(row) else UnknownHandle
  }

  datatype Refusal = Refused(status: int, audit: Option<AuditKind>)

  /** The checks of `/authorize` up to the redirect and the challenge. */
  ghost function CheckAuthorize(cfg: Config, db: Db, q: AuthorizeQuery, fetched: Fetched): Option<Refusal> {
    var me := RequestedMe(cfg, q);
    if q.responseType != "" && q.responseType != "code" then Some(Refused(400, None))
    else if q.state == "" || !ScopeAllowed(q.scope) || me.None? then Some(Refused(400, None))
    else
      var managed := ManagedProfileForMe(cfg, db, me.value);
      if managed.UnknownHandle? then Some(Refused(400, None))
      else if ProfileByMe(cfg, me.value).None? && managed.NotManaged? && !cfg.dynamicEnabled then Some(Refused(400, None))
      else if ValidateHttpsUrl(cfg.lib, q.clientId, cfg.allowHttp).None? then Some(Refused(400, None))
      else if !RedirectAccepted(cfg.lib, q.clientId, q.redirectUri, cfg.allowHttp, if cfg.clientDiscovery then fetched.declared else None) then
        Some(Refused(400, Some(AuthRequestRejected)))
      else if !ChallengeAccepted(cfg, q) then Some(Refused(400, None))
      else None
  }

  /** The profile a checked request signs in as. */
  ghost function ResolveProfile(cfg: Config, db: Db, me: string, page: Option<string>): Option<SignIn> {
    hide *;
    var configured := ProfileByMe(cfg, me);
    match ManagedProfileForMe(cfg, db, me)
    case OwnedBy(row) =>
      Some(SignIn(me, cfg.managedBackend, ProfileDoc(me, NonEmpty(row.displayName), None),
                  if configured.Some? then Static else Managed(row.handle),
                  if configured.Some? then None else Some(row.Holder())))
    case _ =>
      if configured.Some? then
        Some(SignIn(configured.value.me, configured.value.backend, ProfileObject(configured.value), Static, None))
      else
        match DiscoverIdentity(cfg.lib, me, cfg.allowHttp, cfg.metadataName, cfg.publicUrl, cfg.IssuerOf(cfg.dynamicBackend), page)
        case None => None
        case Some(binding) =>
          Some(SignIn(binding.me, cfg.dynamicBackend, ProfileDoc(binding.me, None, None), Page,
                      Some(Owner(binding.issuer, binding.subject))))
  }

  ghost function OnAuthorize(cfg: Config, s: Shared, q: AuthorizeQuery, fetched: Fetched, now: int): Outcome {
    match CheckAuthorize(cfg, s.db, q, fetched)
    case Some(refusal) =>
      if refusal.audit.None? then Finish(s, HttpError(refusal.status))
      else Finish(Log(s, refusal.audit.value, "", RequestedMe(cfg, q).value, q.clientId, now), HttpError(refusal.status))
    case None =>
      var me := RequestedMe(cfg, q).value;
      match ResolveProfile(cfg, s.db, me, fetched.page)
      case None => Finish(Log(s, ProfileMetadataRejected, "", me, q.clientId, now), HttpError(400))
      case Some(signIn) =>
        if signIn.backend !in cfg.backends then Finish(s, HttpError(500)) else Continue(s, Bound(q, signIn))
  }

  function RequestRow(cfg: Config, q: AuthorizeQuery, signIn: SignIn, now: int, ch: Choice): AuthRequest {
    AuthRequest(ch.a, signIn.backend, BackendState(ch.b, ch.c, false, signIn.owner), signIn.me, q.clientId, q.redirectUri,
                q.scope, q.state, q.challenge, q.challengeMethod, Some(signIn.profile), now + cfg.requestTtl, now)
  }

  ghost function OnBound(cfg: Config, s: Shared, q: AuthorizeQuery, signIn: SignIn, now: int, ch: Choice): Outcome {
    if !ch.reachable then Finish(s, HttpError(502))
    else
      var (db, ok) := CreateAuthRequest(s.db, RequestRow(cfg, q, signIn, now, ch));
      if !ok then Finish(s, HttpError(500))
      else
        Finish(Log(s.(db := db), AuthRequestCreated, "", signIn.me, q.clientId, now), ToProvider(signIn.backend, ch.b, ch.c))
          .(note := RequestStored(db.requests[ch.a], Some(q), signIn.source))
  }

  // ---- The provider's callback ----------------------------------------------------------------

  function OnCallback(cfg: Config, s: Shared, backend: string, q: CallbackQuery): Outcome {
    var todo := if backend == "" then cfg.backends.Keys else {backend} * cfg.backends.Keys;
    if q.state == "" || todo == {} then Finish(s, HttpError(400)) else Continue(s, Searching(q, todo))
  }

  ghost function OnSearching(s: Shared, q: CallbackQuery, todo: set<string>, now: int, ch: Choice): Outcome {
    match GetAuthRequest(s.db, ch.backend, q.state, now)
    case Ok(row) => Continue(s, Found(q, row))
    case Err(_) =>
      if todo - {ch.backend} == {} then Finish(s, HttpError(400)) else Continue(s, Searching(q, todo - {ch.backend}))
  }

  /** The identity the provider vouches for, if state, code and nonce are in order. */
  function CompleteAuth(q: CallbackQuery, bs: BackendState, login: Option<IdToken>): Option<IdToken> {
    if q.error != "" || q.state != bs.state || q.code == "" then None
    else if login.None? || login.value.nonce != bs.nonce then None
    else login
  }

  /** The identity is the one recorded for this request, or one the configured profile admits. */
  ghost predicate LoginAllowed(cfg: Config, row: AuthRequest, identity: Identity) {
    match row.backendState.owner
    case Some(owner) => owner.issuer == cfg.IssuerOf(row.backend) && owner.subject == identity.subject
    case None => ProfileByMe(cfg, row.me).Some? && IdentityAllowed(ProfileByMe(cfg, row.me).value, identity)
  }

  function SignedInProfile(row: AuthRequest, identity: Identity): Option<ProfileDoc> {
    if row.backendState.owner.Some? then Some(DynamicProfile(row.me, identity)) else row.profile
  }

  function ConsentRow(cfg: Config, row: AuthRequest, identity: Identity, now: int, ch: Choice): ConsentRequest {
    ConsentRequest(ch.a, ch.b, row.me, row.clientId, row.redirectUri, row.scope, row.clientState, row.challenge,
                   row.challengeMethod, SignedInProfile(row, identity), identity.subject, now + cfg.codeTtl, now)
  }

  function CodeRowFromRequest(cfg: Config, row: AuthRequest, identity: Identity, now: int, ch: Choice): AuthorizationCode {
    AuthorizationCode(HashToken(cfg.lib, ch.a), row.me, row.clientId, row.redirectUri, row.scope, row.challenge,
                      row.challengeMethod, SignedInProfile(row, identity), now + cfg.codeTtl, now, None)
  }

  ghost function OnSetupLogin(cfg: Config, s: Shared, row: AuthRequest, identity: Identity, now: int, ch: Choice): Outcome {
    var owner := Owner(cfg.IssuerOf(row.backend), identity.subject);
    var s' := s.(vault := s.vault[ch.a := SetupPayload(cfg, owner, now)]);
    if cfg.managedEnabled then
      Continue(s', Provisioning(row.id, Looking, identity, owner.issuer, ch.a)).(note := SetupLogin(ch.a, owner))
    else
      Answer(s', SetupPage(owner.issuer, owner.subject, ch.a, None), Dropping(row.id)).(note := SetupLogin(ch.a, owner))
  }

  ghost function OnFound(cfg: Config, s: Shared, q: CallbackQuery, row: AuthRequest, now: int, ch: Choice): Outcome {
    match CompleteAuth(q, row.backendState, ch.login)
    case None => Answer(Log(s, BackendLoginRejected, "", row.me, row.clientId, now), HttpError(401), Dropping(row.id))
    case Some(login) =>
      var identity := login.identity;
      if row.backendState.setup then OnSetupLogin(cfg, s, row, identity, now, ch)
      else if !LoginAllowed(cfg, row, identity) then
        Answer(Log(s, IdentityClaimRejected, identity.subject, row.me, row.clientId, now), HttpError(403), Dropping(row.id))
      else if cfg.consentRequired then
        var (db, ok) := CreateConsentRequest(s.db, ConsentRow(cfg, row, identity, now, ch));
        if !ok then Answer(s, HttpError(500), Dropping(row.id))
        else
          Answer(Log(s.(db := db), ConsentRequired, identity.subject, row.me, row.clientId, now), ToConsent(ch.a), Dropping(row.id))
            .(note := ConsentStored(db.consents[ch.a], row.id, login))
      else
        var code := CodeRowFromRequest(cfg, row, identity, now, ch);
        var (db, ok) := CreateAuthorizationCode(s.db, code);
        if !ok then Answer(s, HttpError(500), Dropping(row.id))
        else
          Answer(Log(s.(db := db), AuthorizationCodeIssued, identity.subject, row.me, row.clientId, now),
                 ToClient(row.redirectUri, ch.a, row.clientState, cfg.issuer), Dropping(row.id))
            .(note := CodeStored(db.codes[code.codeHash], Login(row.id, login)))
  }

  // ---- Managed profiles at the end of a setup login ----------------------------------------------

  function ClaimedName(identity: Identity, handle: string): string {
    if TrimSpace(identity.name) == "" then "@" + handle else TrimSpace(identity.name)
  }

  function NewProfile(cfg: Config, identity: Identity, issuer: string, now: int): ManagedProfile {
    var handle := DesiredHandle(cfg.lib, identity, issuer);
    ManagedProfile(handle, issuer, identity.subject, ClaimedName(identity, handle), "", "", "teal", false, now, now)
  }

  function ShowSetup(s: Shared, p: Proc, row: ManagedProfile): Outcome
    requires p.Provisioning?
  {
    Answer(s, SetupPage(p.issuer, p.identity.subject, p.credential, Some(row)), Dropping(p.requestId))
  }

  function FailSetup(s: Shared, p: Proc): Outcome
    requires p.Provisioning?
  {
    Answer(s, HttpError(500), Dropping(p.requestId))
  }

  ghost function OnLooking(cfg: Config, s: Shared, p: Proc, now: int): Outcome
    requires (hide *; p.Provisioning?)
  {
    if TrimSpace(p.identity.subject) == "" then FailSetup(s, p)
    else
      match GetManagedProfileByIdentity(s.db, Owner(p.issuer, p.identity.subject))
      case None => Continue(s, p.(stage := Creating(NewProfile(cfg, p.identity, p.issuer, now))))
      case Some(row) =>
        var name := ClaimedName(p.identity, row.handle);
        var shown := row.(accent := if row.accent == "" then "teal" else row.accent);
        if !row.customized && name != row.displayName then
          Continue(s, p.(stage := Renaming(shown.(displayName := name, updatedAt := now))))
        else ShowSetup(s, p, shown)
  }

  ghost function OnProvisioning(cfg: Config, s: Shared, p: Proc, now: int): Outcome
    requires (hide *; p.Provisioning?)
  {
    match p.stage
    case Looking => OnLooking(cfg, s, p, now)
    case Renaming(row) =>
      var (db, ok) := UpdateManagedProfile(s.db, row);
      if ok then ShowSetup(s.(db := db), p, row) else FailSetup(s.(db := db), p)
    case Creating(row) =>
      var (db, ok) := CreateManagedProfile(s.db, row);
      if ok then ShowSetup(s.(db := db), p, row).(note := HandleGiven(row))
      else Continue(s, p.(stage := Rechecking(row)))
    case Rechecking(row) =>
      (match GetManagedProfileByIdentity(s.db, Owner(p.issuer, p.identity.subject))
       case Some(existing) => ShowSetup(s, p, existing)
       case None =>
         Continue(s, p.(stage := Suffixing(row.(handle := SuffixedHandle(row.handle, cfg.lib.tag(p.issuer, p.identity.subject)))))))
    case Suffixing(row) =>
      var (db, ok) := CreateManagedProfile(s.db, row);
      if ok then ShowSetup(s.(db := db), p, row).(note := HandleGiven(row)) else FailSetup(s, p)
  }

  // ---- Consent ---------------------------------------------------------------------------------

  function OnConsentPage(s: Shared, id: string, now: int): Outcome {
    match GetConsentRequest(s.db, id, now)
    case Err(_) => Finish(s, HttpError(400))
    case Ok(row) => Finish(s, ConsentForm(row.id, row.csrfToken, row.me, row.clientId, row.redirectUri, row.scope))
  }

  function OnConsentAnswer(s: Shared, id: string, csrf: string, decision: string, now: int): Outcome {
    match GetConsentRequest(s.db, id, now)
    case Err(_) => Finish(s, HttpError(400))
    case Ok(row) =>
      if csrf != row.csrfToken then Finish(Log(s, ConsentRejected, row.subject, row.me, row.clientId, now), HttpError(400))
      else Continue(s, Matched(row, csrf, decision))
  }

  function CodeRowFromConsent(cfg: Config, row: ConsentRequest, now: int, ch: Choice): AuthorizationCode {
    AuthorizationCode(HashToken(cfg.lib, ch.a), row.me, row.clientId, row.redirectUri, row.scope, row.challenge,
                      row.challengeMethod, row.profile, now + cfg.codeTtl, now, None)
  }

  function OnMatched(cfg: Config, s: Shared, row: ConsentRequest, csrf: string, decision: string, now: int, ch: Choice): Outcome {
    if decision != "approve" then
      Answer(Log(s, ConsentDenied, row.subject, row.me, row.clientId, now), ToClientDenied(row.redirectUri, row.clientState),
             DroppingConsent(row.id))
    else
      var code := CodeRowFromConsent(cfg, row, now, ch);
      var (db, ok) := CreateAuthorizationCode(s.db, code);
      if !ok then Answer(s, HttpError(500), DroppingConsent(row.id))
      else
        Answer(Log(s.(db := db), AuthorizationCodeIssued, row.subject, row.me, row.clientId, now),
               ToClient(row.redirectUri, ch.a, row.clientState, cfg.issuer), DroppingConsent(row.id))
          .(note := CodeStored(db.codes[code.codeHash], Approval(row.id, csrf)))
  }

  // ---- Codes and tokens ---------------------------------------------------------------------------

  /** Client, redirect and PKCE checks of a presentation; the token endpoint also insists on a challenge. */
  predicate PresentationOk(cfg: Config, row: AuthorizationCode, form: CodeForm, atTokenEndpoint: bool) {
    && row.clientId == form.clientId && row.redirectUri == form.redirectUri
    && (atTokenEndpoint && cfg.requirePkce ==> row.challenge != "")
    && (row.challenge != "" ==> VerifyPKCES256(cfg.lib, form.verifier, row.challenge))
  }

  /** The client named in the audit event of a refused presentation. */
  function RefusedClient(row: AuthorizationCode, form: CodeForm): string {
    if row.clientId == form.clientId && row.redirectUri == form.redirectUri then row.clientId else form.clientId
  }

  function OnExchange(cfg: Config, s: Shared, form: CodeForm, now: int): Outcome {
    if form.grantType != "authorization_code" then
      Finish(Log(s, TokenExchangeRejected, "", "", form.clientId, now), OAuthError(400, UnsupportedGrantType))
    else if form.code == "" then
      Finish(Log(s, TokenExchangeRejected, "", "", form.clientId, now), OAuthError(400, InvalidRequest))
    else
      var hash := HashToken(cfg.lib, form.code);
      match ConsumeAuthorizationCode(s.db, hash, now)
      case (_, Err(_)) => Finish(Log(s, TokenExchangeRejected, "", "", form.clientId, now), OAuthError(400, InvalidGrant))
      case (db, Ok(row)) =>
        if !PresentationOk(cfg, row, form, true) then
          Finish(Log(s.(db := db), TokenExchangeRejected, "", row.me, RefusedClient(row, form), now), OAuthError(400, InvalidGrant))
            .(note := CodePresented(hash, ToWaste))
        else Continue(s.(db := db), Redeemed(row, form)).(note := CodePresented(hash, ToExchange))
  }

  function TokenRow(cfg: Config, row: AuthorizationCode, now: int, ch: Choice): AccessToken {
    AccessToken(HashToken(cfg.lib, ch.a), row.me, row.clientId, row.scope, row.profile, now + cfg.tokenTtl, now, None)
  }

  function OnRedeemed(cfg: Config, s: Shared, row: AuthorizationCode, form: CodeForm, now: int, ch: Choice): Outcome {
    var token := TokenRow(cfg, row, now, ch);
    var (db, ok) := CreateAccessToken(s.db, token);
    if !ok then Finish(s, OAuthError(500, ServerError)).(note := CodeWasted(row.codeHash))
    else
      Finish(Log(s.(db := db), AccessTokenIssued, "", row.me, row.clientId, now), TokenGranted(ch.a, row.scope, row.me, row.profile))
        .(note := TokenStored(db.tokens[token.tokenHash], row.codeHash, form))
  }

  function OnCodeProfile(cfg: Config, s: Shared, form: CodeForm, now: int): Outcome {
    if form.code == "" then
      Finish(Log(s, CodeProfileRejected, "", "", form.clientId, now), OAuthError(400, InvalidRequest))
    else
      var hash := HashToken(cfg.lib, form.code);
      match ConsumeAuthorizationCode(s.db, hash, now)
      case (_, Err(_)) => Finish(Log(s, CodeProfileRejected, "", "", form.clientId, now), OAuthError(400, InvalidGrant))
      case (db, Ok(row)) =>
        if !PresentationOk(cfg, row, form, false) then
          Finish(Log(s.(db := db), CodeProfileRejected, "", row.me, RefusedClient(row, form), now), OAuthError(400, InvalidGrant))
            .(note := CodePresented(hash, ToWaste))
        else
          Finish(Log(s.(db := db), CodeProfileReturned, "", row.me, row.clientId, now), ProfileAnswer(row.me, row.profile))
            .(note := CodePresented(hash, ToAnswer))
  }

  function OnIntrospect(cfg: Config, s: Shared, token: string, now: int): Outcome {
    if token == "" then Finish(s, OAuthError(400, InvalidRequest))
    else
      match GetAccessToken(s.db, HashToken(cfg.lib, token), now)
      case Err(_) => Finish(s, TokenInactive)
      case Ok(row) =>
        Finish(s, TokenActive(row.clientId, row.scope, row.me, Unix(row.expiresAt), Unix(row.createdAt), row.profile))
  }

  function OnRevoke(cfg: Config, s: Shared, token: string, now: int): Outcome {
    if token == "" then Finish(s, OAuthError(400, InvalidRequest))
    else
      match GetAccessToken(s.db, HashToken(cfg.lib, token), now)
      case Err(_) => Continue(s, Revoking(token))
      case Ok(row) => Continue(Log(s, AccessTokenRevoked, "", row.me, row.clientId, now), Revoking(token))
  }

  function OnRevoking(cfg: Config, s: Shared, token: string, now: int): Outcome {
    var hash := HashToken(cfg.lib, token);
    Finish(s.(db := RevokeAccessToken(s.db, hash, now)), RevokedOk).(note := TokenRevoked(hash))
  }

  // ---- Profile edits and the tester ------------------------------------------------------------------

  predicate IsControl(c: char) {
    c as int < 0x20 || 0x7F <= c as int < 0xA0
  }

  predicate ValidText(s: string, limit: int, multiline: bool) {
    |s| <= limit && forall i :: 0 <= i < |s| && IsControl(s[i]) ==> multiline && s[i] in "\n\r\t"
  }

  predicate KnownAccent(accent: string) {
    accent in {"teal", "blue", "violet", "rose", "amber"}
  }

  function WebsiteOf(cfg: Config, raw: string): Option<string> {
    var value := TrimSpace(raw);
    if value == "" then Some("")
    else
      match cfg.lib.parse(value)
      case None => None
      case Some(u) => if u.scheme != "https" || u.NoHost() || u.userinfo then None else Some(cfg.lib.render(u))
  }

  predicate EditOk(cfg: Config, form: ProfileForm) {
    && TrimSpace(form.displayName) != "" && ValidText(TrimSpace(form.displayName), 80, false)
    && ValidText(TrimSpace(form.bio), 280, true)
    && WebsiteOf(cfg, form.websiteUrl).Some? && KnownAccent(TrimSpace(form.accent))
  }

  function Edited(cfg: Config, row: ManagedProfile, form: ProfileForm): ManagedProfile
    requires EditOk(cfg, form)
  {
    row.(displayName := TrimSpace(form.displayName), bio := TrimSpace(form.bio), websiteUrl := WebsiteOf(cfg, form.websiteUrl).value,
         accent := TrimSpace(form.accent), customized := true)
  }

  ghost function OnEditProfile(cfg: Config, s: Shared, form: ProfileForm, now: int): Outcome {
    hide *;
    if !cfg.managedEnabled then Finish(s, HttpError(404))
    else
      match OpenSetup(s.vault, form.credential, now)
      case None => Finish(s, HttpError(401))
      case Some(owner) =>
        match GetManagedProfileByIdentity(s.db, owner)
        case None => Finish(s, HttpError(404))
        case Some(row) =>
          if !EditOk(cfg, form) then Finish(s, HttpError(400))
          else Continue(s, Editing(Edited(cfg, row, form), form.credential, now))
  }

  ghost function OnEditing(cfg: Config, s: Shared, profile: ManagedProfile, credential: string, checkedAt: int, now: int): Outcome {
    var (db, ok) := UpdateManagedProfile(s.db, profile.(updatedAt := now));
    if !ok then Finish(s.(db := db), HttpError(500))
    else
      var url := ManagedProfileUrl(cfg, profile.handle);
      Finish(Log(s.(db := db), ManagedProfileUpdated, profile.subject, url, "", now), ToProfile(url))
        .(note := ProfileEdited(profile.Holder(), credential, checkedAt))
  }

  function OnStartTest(cfg: Config, s: Shared, target: Target, now: int, ch: Choice): Outcome {
    Finish(s.(vault := s.vault[ch.a := TesterPayload(cfg, target, ch.b, ch.c, now)]), TesterStarted(ch.a))
  }

  // ---- One step of any request ---------------------------------------------------------------------------

  /** The backend tried next is one not tried yet. */
  predicate ChoiceOk(p: Proc, ch: Choice) {
    p.Searching? ==> ch.backend in p.todo
  }

  ghost function Begin(cfg: Config, s: Shared, r: Request, now: int, ch: Choice): Outcome {
    match r
    case Setup => OnSetup(cfg, s, now, ch)
    case Authorize(q, fetched) => OnAuthorize(cfg, s, q, fetched, now)
    case Callback(backend, q) => OnCallback(cfg, s, backend, q)
    case ConsentPage(id) => OnConsentPage(s, id, now)
    case ConsentAnswer(id, csrf, decision) => OnConsentAnswer(s, id, csrf, decision, now)
    case Exchange(form) => OnExchange(cfg, s, form, now)
    case CodeProfile(form) => OnCodeProfile(cfg, s, form, now)
    case Introspect(token) => OnIntrospect(cfg, s, token, now)
    case Revoke(token) => OnRevoke(cfg, s, token, now)
    case EditProfile(form) => OnEditProfile(cfg, s, form, now)
    case StartTest(target) => OnStartTest(cfg, s, target, now, ch)
  }

  ghost function Advance(cfg: Config, s: Shared, p: Proc, now: int, ch: Choice): Outcome {
    hide *;
    match p
    case Arrived(r) => Begin(cfg, s, r, now, ch)
    case Bound(q, signIn) => OnBound(cfg, s, q, signIn, now, ch)
    case Searching(q, todo) => OnSearching(s, q, todo, now, ch)
    case Found(q, row) => OnFound(cfg, s, q, row, now, ch)
    case Provisioning(_, _, _, _, _) => OnProvisioning(cfg, s, p, now)
    case Dropping(id) => Outcome(s.(db := DeleteAuthRequest(s.db, id)), None, None, Nothing)
    case Matched(row, csrf, decision) => OnMatched(cfg, s, row, csrf, decision, now, ch)
    case DroppingConsent(id) => Outcome(s.(db := DeleteConsentRequest(s.db, id)), None, None, Nothing)
    case Redeemed(row, form) => OnRedeemed(cfg, s, row, form, now, ch)
    case Revoking(token) => OnRevoking(cfg, s, token, now)
    case Editing(profile, credential, checkedAt) => OnEditing(cfg, s, profile, credential, checkedAt, now)
  }
}
