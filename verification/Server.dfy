/**
 The server's handlers as they are written: statement by statement over a
 store that they update in place. Each is proved to answer and to leave
 tables and sealed values exactly as its steps do when driven to their end,
 so what is proved of runs holds of these bodies.
 */
module Server {
  import opened Prelude
  import opened Text
  import opened Library
  import opened Config
  import opened Handles
  import opened Discovery
  import opened Tables
  import opened Store
  import opened Handlers
  import opened ManagedProfiles
  import opened Atomic

  lemma RejectedUnchanged(db: Db, hash: string, now: int)
    ensures ConsumeAuthorizationCode(db, hash, now).1.Err? ==> ConsumeAuthorizationCode(db, hash, now).0 == db
  {
  }

  lemma DuplicateUnchanged(db: Db, row: AccessToken)
    ensures !CreateAccessToken(db, row).1 ==> CreateAccessToken(db, row).0 == db
  {
  }

  lemma DuplicateCodeUnchanged(db: Db, row: AuthorizationCode)
    ensures !CreateAuthorizationCode(db, row).1 ==> CreateAuthorizationCode(db, row).0 == db
  {
  }

  class Server {
    const cfg: Config
    const store: SQLite
    var vault: map<string, Payload>

    ghost predicate Valid()
      reads this, store
    {
      store.lib == cfg.lib && UniqueStates(store.requests) && ProfilesKeyed(store.profiles)
    }

    ghost function State(): Shared
      reads this, store
    {
      Shared(store.Contents(), vault)
    }

    /** The provider state drawn is in use by no stored request. */
    ghost predicate NewState(ch: Choice)
      reads store
    {
      forall id :: id in store.requests ==> store.requests[id].backendState.state != ch.b
    }

    constructor (cfg: Config, store: SQLite)
      requires store.lib == cfg.lib && store.Contents() == EMPTY
      ensures this.cfg == cfg && this.store == store && Valid() && State() == Shared(EMPTY, map[])
    {
      this.cfg, this.store, this.vault := cfg, store, map[];
    }

    // ---- Tokens ------------------------------------------------------------------------

    method HandleIntrospect(token: string, now: int, ch: Choice) returns (reply: Reply)
      requires Valid()
      ensures (State(), Some(reply)) == Drive(cfg, State(), Arrived(Introspect(token)), now, [ch])
    {
      hide Drive, Advance;
      DriveArrived(cfg, State(), Introspect(token), now, [ch]);
      if token == "" {
        return OAuthError(400, InvalidRequest);
      }
      var rec := store.GetAccessToken(token, now);
      if rec.Err? {
        return TokenInactive;
      }
      var row := rec.value;
      return TokenActive(row.clientId, row.scope, row.me, Unix(row.expiresAt), Unix(row.createdAt), row.profile);
    }

    method HandleRevoke(token: string, now: int, c0: Choice, c1: Choice) returns (reply: Reply)
      requires (hide *; Valid())
      modifies store
      ensures Valid() && (State(), Some(reply)) == Drive(cfg, old(State()), Arrived(Revoke(token)), now, [c0, c1])
    {
      hide Drive, Advance;
      DriveArrived(cfg, State(), Revoke(token), now, [c0, c1]);
      assert [c0, c1][1..] == [c1];
      if token == "" {
        return OAuthError(400, InvalidRequest);
      }
      var rec := store.GetAccessToken(token, now);
      if rec.Ok? {
        store.CreateAuditEvent(AccessTokenRevoked, "", rec.value.me, rec.value.clientId, now);
      }
      DriveRevoking(cfg, State(), token, now, c1);
      store.RevokeAccessToken(token, now);
      return RevokedOk;
    }

    method HandleToken(form: CodeForm, now: int, c0: Choice, c1: Choice) returns (reply: Reply)
      requires (hide *; Valid())
      modifies store
      ensures Valid() && (State(), Some(reply)) == Drive(cfg, old(State()), Arrived(Exchange(form)), now, [c0, c1])
    {
      hide Drive, Advance, HashToken, VerifyPKCES256, ConsumeAuthorizationCode, CreateAccessToken, Audit, UniqueStates, ProfilesKeyed;
      DriveArrived(cfg, State(), Exchange(form), now, [c0, c1]);
      assert [c0, c1][1..] == [c1];
      if form.grantType != "authorization_code" {
        store.CreateAuditEvent(TokenExchangeRejected, "", "", form.clientId, now);
        return OAuthError(400, UnsupportedGrantType);
      }
      if form.code == "" {
        store.CreateAuditEvent(TokenExchangeRejected, "", "", form.clientId, now);
        return OAuthError(400, InvalidRequest);
      }
      RejectedUnchanged(store.Contents(), HashToken(cfg.lib, form.code), now);
      var r := store.ConsumeAuthorizationCode(form.code, now);
      if r.Err? {
        store.CreateAuditEvent(TokenExchangeRejected, "", "", form.clientId, now);
        return OAuthError(400, InvalidGrant);
      }
      var rec := r.value;
      if rec.clientId != form.clientId || rec.redirectUri != form.redirectUri {
        store.CreateAuditEvent(TokenExchangeRejected, "", rec.me, form.clientId, now);
        return OAuthError(400, InvalidGrant);
      }
      if cfg.requirePkce && rec.challenge == "" {
        store.CreateAuditEvent(TokenExchangeRejected, "", rec.me, rec.clientId, now);
        return OAuthError(400, InvalidGrant);
      }
      if rec.challenge != "" && !VerifyPKCES256(cfg.lib, form.verifier, rec.challenge) {
        store.CreateAuditEvent(TokenExchangeRejected, "", rec.me, rec.clientId, now);
        return OAuthError(400, InvalidGrant);
      }
      DriveRedeemed(cfg, State(), rec, form, now, c1);
      DuplicateUnchanged(store.Contents(), TokenRow(cfg, rec, now, c1));
      var ok := store.CreateAccessToken(c1.a,
        AccessToken("", rec.me, rec.clientId, rec.scope, rec.profile, now + cfg.tokenTtl, now, None));
      if !ok {
        return OAuthError(500, ServerError);
      }
      store.CreateAuditEvent(AccessTokenIssued, "", rec.me, rec.clientId, now);
      return TokenGranted(c1.a, rec.scope, rec.me, rec.profile);
    }

    method HandleAuthorizationCodeProfile(form: CodeForm, now: int, ch: Choice) returns (reply: Reply)
      requires (hide *; Valid())
      modifies store
      ensures Valid() && (State(), Some(reply)) == Drive(cfg, old(State()), Arrived(CodeProfile(form)), now, [ch])
    {
      hide Drive, Advance, HashToken, VerifyPKCES256;
      DriveArrived(cfg, State(), CodeProfile(form), now, [ch]);
      if form.code == "" {
        store.CreateAuditEvent(CodeProfileRejected, "", "", form.clientId, now);
        return OAuthError(400, InvalidRequest);
      }
      var r := store.ConsumeAuthorizationCode(form.code, now);
      if r.Err? {
        store.CreateAuditEvent(CodeProfileRejected, "", "", form.clientId, now);
        return OAuthError(400, InvalidGrant);
      }
      var rec := r.value;
      if rec.clientId != form.clientId || rec.redirectUri != form.redirectUri {
        store.CreateAuditEvent(CodeProfileRejected, "", rec.me, form.clientId, now);
        return OAuthError(400, InvalidGrant);
      }
      if rec.challenge != "" && !VerifyPKCES256(cfg.lib, form.verifier, rec.challenge) {
        store.CreateAuditEvent(CodeProfileRejected, "", rec.me, rec.clientId, now);
        return OAuthError(400, InvalidGrant);
      }
      store.CreateAuditEvent(CodeProfileReturned, "", rec.me, rec.clientId, now);
      return ProfileAnswer(rec.me, rec.profile);
    }

    // ---- Consent ------------------------------------------------------------------------

    method HandleConsentGet(id: string, now: int, ch: Choice) returns (reply: Reply)
      requires Valid()
      ensures (State(), Some(reply)) == Drive(cfg, State(), Arrived(ConsentPage(id)), now, [ch])
    {
      hide Drive, Advance;
      DriveArrived(cfg, State(), ConsentPage(id), now, [ch]);
      var cr := store.GetConsentRequest(id, now);
      if cr.Err? {
        return HttpError(400);
      }
      var row := cr.value;
      return ConsentForm(row.id, row.csrfToken, row.me, row.clientId, row.redirectUri, row.scope);
    }

    /** Stores and logs a code, and sends the browser back to the client. */
    method IssueCodeAndRedirect(me: string, clientId: string, redirectUri: string, scope: string, clientState: string, challenge: string,
                                challengeMethod: string, profile: Option<ProfileDoc>, subject: string, now: int, ch: Choice)
      returns (reply: Option<Reply>)
      modifies store
      ensures Valid() == old(Valid())
      ensures var row := AuthorizationCode(HashToken(store.lib, ch.a), me, clientId, redirectUri, scope, challenge, challengeMethod, profile,
                                           now + cfg.codeTtl, now, None);
              var (db, ok) := CreateAuthorizationCode(old(store.Contents()), row);
              && store.Contents() == (if ok then Audit(db, AuthorizationCodeIssued, subject, me, clientId, now) else db)
              && reply == if ok then Some(ToClient(redirectUri, ch.a, clientState, cfg.issuer)) else None
    {
      hide HashToken;
      var ok := store.CreateAuthorizationCode(ch.a,
        AuthorizationCode("", me, clientId, redirectUri, scope, challenge, challengeMethod, profile, now + cfg.codeTtl, now, None));
      if !ok {
        return None;
      }
      store.CreateAuditEvent(AuthorizationCodeIssued, subject, me, clientId, now);
      return Some(ToClient(redirectUri, ch.a, clientState, cfg.issuer));
    }

    method HandleConsentPost(id: string, csrf: string, decision: string, now: int, c0: Choice, c1: Choice, c2: Choice) returns (reply: Reply)
      requires (hide *; Valid())
      modifies store
      ensures Valid() && (State(), Some(reply)) == Drive(cfg, old(State()), Arrived(ConsentAnswer(id, csrf, decision)), now, [c0, c1, c2])
    {
      hide Drive, Advance, HashToken, CreateAuthorizationCode, Audit, UniqueStates, ProfilesKeyed;
      DriveArrived(cfg, State(), ConsentAnswer(id, csrf, decision), now, [c0, c1, c2]);
      assert [c0, c1, c2][1..] == [c1, c2] && [c1, c2][1..] == [c2];
      var cr := store.GetConsentRequest(id, now);
      if cr.Err? {
        return HttpError(400);
      }
      var row := cr.value;
      if csrf != row.csrfToken {
        store.CreateAuditEvent(ConsentRejected, row.subject, row.me, row.clientId, now);
        return HttpError(400);
      }
      DriveMatched(cfg, State(), row, csrf, decision, now, [c1, c2]);
      if decision != "approve" {
        store.CreateAuditEvent(ConsentDenied, row.subject, row.me, row.clientId, now);
        reply := ToClientDenied(row.redirectUri, row.clientState);
      } else {
        DuplicateCodeUnchanged(store.Contents(), CodeRowFromConsent(cfg, row, now, c1));
        var answer := IssueCodeAndRedirect(row.me, row.clientId, row.redirectUri, row.scope, row.clientState, row.challenge, row.challengeMethod,
                                           row.profile, row.subject, now, c1);
        reply := if answer.Some? then answer.value else HttpError(500);
      }
      DriveDropsConsent(cfg, State(), row.id, now, [c2]);
      store.DeleteConsentRequest(row.id);
    }

    // ---- /setup and /authorize -------------------------------------------------------------

    method HandleSetup(now: int, ch: Choice) returns (reply: Reply)
      requires (hide *; Valid()) && NewState(ch)
      modifies store
      ensures Valid() && (State(), Some(reply)) == Drive(cfg, old(State()), Arrived(Setup), now, [ch])
    {
      hide Drive, Advance;
      DriveArrived(cfg, State(), Setup, now, [ch]);
      if !cfg.dynamicEnabled && !cfg.managedEnabled {
        return HttpError(404);
      }
      var backendName := cfg.dynamicBackend;
      if cfg.managedEnabled {
        backendName := cfg.managedBackend;
      }
      if backendName !in cfg.backends {
        return HttpError(500);
      }
      if !ch.reachable {
        return HttpError(502);
      }
      var backendState := BackendState(ch.b, ch.c, false, None);
      backendState := backendState.(setup := true);
      var ok := store.CreateAuthRequest(
        AuthRequest(ch.a, backendName, backendState, "", "", "", "", "", "", "", None, now + cfg.requestTtl, now));
      if !ok {
        return HttpError(500);
      }
      return ToProvider(backendName, ch.b, ch.c);
    }

    method FindManagedProfile(me: string) returns (r: ManagedLookup)
      ensures r == ManagedProfileForMe(cfg, store.Contents(), me)
    {
      if !cfg.managedEnabled {
        return NotManaged;
      }
      var u, publicUrl := cfg.lib.parse(me), cfg.lib.parse(cfg.publicUrl);
      if u.None? {
        return NotManaged;
      }
      if publicUrl.None? || !SameOrigin(u.value, publicUrl.value) || !("/@" <= u.value.path) || '/' in u.value.path[2..] {
        return NotManaged;
      }
      var handle := NormalizeManagedHandle(cfg.lib, u.value.path[2..]);
      if handle == "" {
        return NotManaged;
      }
      var profile := store.GetManagedProfileByHandle(handle);
      if profile.None? || me != ManagedProfileUrl(cfg, profile.value.handle) {
        return UnknownHandle;
      }
      return OwnedBy(profile.value);
    }

    /** The challenge check: strict when PKCE is required, except for a legacy sign-in. */
    method CheckChallenge(q: AuthorizeQuery) returns (ok: bool)
      ensures ok == ChallengeAccepted(cfg, q)
    {
      if cfg.requirePkce && !LegacySignIn(q) {
        ok := ValidateCodeChallenge(q.challenge, q.challengeMethod);
      } else {
        ok := !(q.challenge != "" && q.challengeMethod != "S256");
      }
    }

    /** The requested URL and how it is known, or why the request is refused. */
    method CheckRequest(q: AuthorizeQuery, fetched: Fetched) returns (me: string, managed: ManagedLookup, refusal: Option<Refusal>)
      ensures (hide *; refusal == CheckAuthorize(cfg, store.Contents(), q, fetched))
      ensures refusal.None? || refusal.value.audit.Some? ==> RequestedMe(cfg, q) == Some(me)
      ensures refusal.None? ==> managed == ManagedProfileForMe(cfg, store.Contents(), me)
    {
      hide ManagedProfileForMe, ProfileByMe, RedirectAccepted, ChallengeAccepted, ScopeAllowed, ValidateHttpsUrl, CanonicalUrl;
      me, managed := "", NotManaged;
      if q.responseType != "" && q.responseType != "code" {
        return me, managed, Some(Refused(400, None));
      }
      if q.state == "" {
        return me, managed, Some(Refused(400, None));
      }
      var scopeOk := AllowsScope(q.scope);
      if !scopeOk {
        return me, managed, Some(Refused(400, None));
      }
      var meUrl := ValidateHttpsUrl(cfg.lib, q.me, cfg.allowHttp);
      if meUrl.None? {
        return me, managed, Some(Refused(400, None));
      }
      var canonical := CanonicalUrl(cfg.lib, cfg.lib.render(meUrl.value));
      if canonical.None? {
        return me, managed, Some(Refused(400, None));
      }
      me := canonical.value;
      var profile := ProfileByMe(cfg, me);
      managed := FindManagedProfile(me);
      if managed.UnknownHandle? {
        return me, managed, Some(Refused(400, None));
      }
      if profile.None? && !managed.OwnedBy? && !cfg.dynamicEnabled {
        return me, managed, Some(Refused(400, None));
      }
      if ValidateHttpsUrl(cfg.lib, q.clientId, cfg.allowHttp).None? {
        return me, managed, Some(Refused(400, None));
      }
      var declared := if cfg.clientDiscovery then fetched.declared else None;
      var redirectOk := ValidateClientRedirect(cfg.lib, q.clientId, q.redirectUri, cfg.allowHttp, declared);
      if !redirectOk {
        return me, managed, Some(Refused(400, Some(AuthRequestRejected)));
      }
      var challengeOk := CheckChallenge(q);
      if !challengeOk {
        return me, managed, Some(Refused(400, None));
      }
      return me, managed, None;
    }

    /** The profile to sign in as: a managed one, a configured one, or the one the page at `me` binds. */
    method Resolve(me: string, managed: ManagedLookup, page: Option<string>) returns (signIn: Option<SignIn>)
      requires (hide *; managed == ManagedProfileForMe(cfg, store.Contents(), me))
      ensures signIn == ResolveProfile(cfg, store.Contents(), me, page)
    {
      hide ManagedProfileForMe, ProfileByMe, DiscoverIdentity;
      var configured := ProfileByMe(cfg, me);
      if managed.OwnedBy? {
        var source := if configured.Some? then Static else Managed(managed.row.handle);
        var owner := if configured.Some? then None else Some(managed.row.Holder());
        return Some(SignIn(me, cfg.managedBackend, ProfileDoc(me, NonEmpty(managed.row.displayName), None), source, owner));
      }
      if configured.Some? {
        return Some(SignIn(configured.value.me, configured.value.backend, ProfileObject(configured.value), Static, None));
      }
      var binding := DiscoverProfileIdentity(cfg.lib, me, cfg.allowHttp, cfg.metadataName, cfg.publicUrl, cfg.IssuerOf(cfg.dynamicBackend), page);
      if binding.None? {
        return None;
      }
      return Some(SignIn(binding.value.me, cfg.dynamicBackend, ProfileDoc(binding.value.me, None, None), Page,
                         Some(Owner(binding.value.issuer, binding.value.subject))));
    }

    method HandleAuthorize(q: AuthorizeQuery, fetched: Fetched, now: int, c0: Choice, c1: Choice) returns (reply: Reply)
      requires (hide *; Valid()) && NewState(c1)
      modifies store
      ensures Valid() && (State(), Some(reply)) == Drive(cfg, old(State()), Arrived(Authorize(q, fetched)), now, [c0, c1])
    {
      hide Drive, Advance, CheckAuthorize, ResolveProfile, RequestedMe, ManagedProfileForMe;
      DriveArrived(cfg, State(), Authorize(q, fetched), now, [c0, c1]);
      assert [c0, c1][1..] == [c1];
      var me, managed, refusal := CheckRequest(q, fetched);
      if refusal.Some? {
        if refusal.value.audit.Some? {
          store.CreateAuditEvent(refusal.value.audit.value, "", me, q.clientId, now);
        }
        return HttpError(refusal.value.status);
      }
      var resolved := Resolve(me, managed, fetched.page);
      if resolved.None? {
        store.CreateAuditEvent(ProfileMetadataRejected, "", me, q.clientId, now);
        return HttpError(400);
      }
      var signIn := resolved.value;
      if signIn.backend !in cfg.backends {
        return HttpError(500);
      }
      DriveBound(cfg, State(), q, signIn, now, c1);
      reply := StoreRequest(q, signIn, now, c1);
    }

    /** From the provider's redirect to the end of the request. */
    method StoreRequest(q: AuthorizeQuery, signIn: SignIn, now: int, ch: Choice) returns (reply: Reply)
      requires (hide *; Valid()) && NewState(ch)
      modifies store
      ensures Valid()
      ensures var o := OnBound(cfg, old(State()), q, signIn, now, ch); o.shared == State() && o.reply == Some(reply) && o.next == None
    {
      if !ch.reachable {
        return HttpError(502);
      }
      var backendState := BackendState(ch.b, ch.c, false, None);
      if signIn.owner.Some? {
        backendState := backendState.(owner := signIn.owner);
      }
      var ok := store.CreateAuthRequest(
        AuthRequest(ch.a, signIn.backend, backendState, signIn.me, q.clientId, q.redirectUri, q.scope, q.state, q.challenge,
                    q.challengeMethod, Some(signIn.profile), now + cfg.requestTtl, now));
      if !ok {
        return HttpError(500);
      }
      store.CreateAuditEvent(AuthRequestCreated, "", signIn.me, q.clientId, now);
      return ToProvider(signIn.backend, ch.b, ch.c);
    }

    // ---- The provider's callback --------------------------------------------------------------

    /** The draws are the first of `supply`, but for the backends tried. */
    static ghost predicate Taken(draws: seq<Choice>, supply: seq<Choice>) {
      |draws| <= |supply| && forall i :: 0 <= i < |draws| ==> draws[i] == supply[i].(backend := draws[i].backend)
    }

    /** Finds the stored request of a callback: at the backend named, or at any, in no particular order. */
    method FindAuthRequest(backend: string, q: CallbackQuery, now: int, supply: seq<Choice>)
      returns (row: Option<AuthRequest>, tried: seq<Choice>)
      requires (hide *; Valid()) && q.state != "" && |supply| > |cfg.backends.Keys|
      ensures Taken(tried, supply) && |tried| <= |cfg.backends.Keys| + 1
      ensures row.Some? ==> Reaches(cfg, State(), Arrived(Callback(backend, q)), now, tried, State(), Found(q, row.value))
      ensures row.None? ==> Searched(cfg, State(), backend, q, now, tried, {})
    {
      hide Drive, Advance, Reaches, Orderly, GetAuthRequest, Searched, UniqueStates, ProfilesKeyed;
      tried := [supply[0]];
      var todo := cfg.backends.Keys;
      if backend != "" {
        todo := if backend in cfg.backends then {backend} else {};
        assert todo == {backend} * cfg.backends.Keys;
      }
      SearchBegins(cfg, State(), backend, q, now, supply[0], todo);
      while todo != {}
        invariant todo <= cfg.backends.Keys
        invariant Taken(tried, supply) && |tried| + |todo| <= |cfg.backends.Keys| + 1
        invariant Searched(cfg, State(), backend, q, now, tried, todo)
        decreases |todo|
      {
        var name :| name in todo;
        var draw := supply[|tried|].(backend := name);
        TriedOne(cfg, State(), backend, q, now, tried, todo, draw);
        tried := tried + [draw];
        var r := store.GetAuthRequestByBackendState(name, q.state, now);
        if r.Ok? {
          return Some(r.value), tried;
        }
        todo := todo - {name};
      }
      return None, tried;
    }

    /** The provider's answer: error, state, code and nonce are checked in this order. */
    method Authenticate(q: CallbackQuery, bs: BackendState, login: Option<IdToken>) returns (r: Option<IdToken>)
      ensures r == CompleteAuth(q, bs, login)
    {
      if q.error != "" {
        return None;
      }
      if q.state != bs.state {
        return None;
      }
      if q.code == "" {
        return None;
      }
      if login.None? {
        return None;
      }
      if login.value.nonce != bs.nonce {
        return None;
      }
      return login;
    }

    method CheckIdentity(row: AuthRequest, identity: Identity) returns (ok: bool)
      ensures ok == LoginAllowed(cfg, row, identity)
    {
      hide ProfileByMe, IdentityAllowed;
      if row.backendState.owner.Some? {
        var expected := row.backendState.owner.value;
        return expected.issuer == cfg.IssuerOf(row.backend) && expected.subject == identity.subject;
      }
      var profile := ProfileByMe(cfg, row.me);
      if profile.None? {
        return false;
      }
      ok := AllowsIdentity(profile.value, identity);
    }

    method EnsureManagedProfile(identity: Identity, issuer: string, now: int) returns (r: Result<ManagedProfile, EnsureError>)
      requires (hide *; Valid())
      modifies store
      ensures Valid() && (store.Contents(), r) == Ensure(cfg, old(store.Contents()), identity, issuer, now)
    {
      hide TrimSpace, DesiredHandle, SuffixedHandle, ProfilesKeyed, UniqueStates, CreateManagedProfile, UpdateManagedProfile,
        GetManagedProfileByIdentity;
      if TrimSpace(identity.subject) == "" {
        return Err(NoSubject);
      }
      var found := store.GetManagedProfileByIdentity(Owner(issuer, identity.subject));
      if found.Some? {
        var existing := found.value;
        var displayName := TrimSpace(identity.name);
        if displayName == "" {
          displayName := "@" + existing.handle;
        }
        if existing.accent == "" {
          existing := existing.(accent := "teal");
        }
        if !existing.customized && displayName != existing.displayName {
          existing := existing.(displayName := displayName, updatedAt := now);
          var _ := store.UpdateManagedProfile(existing);
        }
        return Ok(existing);
      }
      var handle := DesiredManagedHandle(cfg.lib, identity, issuer);
      var displayName := TrimSpace(identity.name);
      if displayName == "" {
        displayName := "@" + handle;
      }
      var profile := ManagedProfile(handle, issuer, identity.subject, displayName, "", "", "teal", false, now, now);
      var ok := store.CreateManagedProfile(profile);
      if ok {
        return Ok(profile);
      }
      // Only a login running at the same time can have put a profile here.
      var concurrent := store.GetManagedProfileByIdentity(Owner(issuer, identity.subject));
      match concurrent {
        case Some(existing) => return Ok(existing);
        case None =>
      }
      profile := profile.(handle := SuffixedHandle(handle, cfg.lib.tag(issuer, identity.subject)));
      ok := store.CreateManagedProfile(profile);
      if !ok {
        return Err(HandlesTaken);
      }
      return Ok(profile);
    }

    /** The end of a setup login: the credential is sealed, and a managed profile provided if they are on. */
    method RenderSetupIdentity(identity: Identity, issuer: string, now: int, ch: Choice) returns (reply: Reply)
      requires (hide *; Valid())
      modifies this, store
      ensures Valid()
      ensures var s := old(State()).(vault := old(vault)[ch.a := SetupPayload(cfg, Owner(issuer, identity.subject), now)]);
              if cfg.managedEnabled then
                var (db, r) := Ensure(cfg, s.db, identity, issuer, now);
                State() == s.(db := db)
                && reply == if r.Ok? then SetupPage(issuer, identity.subject, ch.a, Some(r.value)) else HttpError(500)
              else State() == s && reply == SetupPage(issuer, identity.subject, ch.a, None)
    {
      hide Ensure;
      var credential := SealSetupIdentity(Owner(issuer, identity.subject), now, ch);
      if !cfg.managedEnabled {
        return SetupPage(issuer, identity.subject, credential, None);
      }
      var profile := EnsureManagedProfile(identity, issuer, now);
      if profile.Err? {
        return HttpError(500);
      }
      return SetupPage(issuer, identity.subject, credential, Some(profile.value));
    }

    method SealSetupIdentity(owner: Owner, now: int, ch: Choice) returns (credential: string)
      modifies this
      ensures store.Contents() == old(store.Contents()) && vault == old(vault)[ch.a := SetupPayload(cfg, owner, now)] && credential == ch.a
    {
      vault := vault[ch.a :=
        map["issuer" := Text(owner.issuer), "subject" := Text(owner.subject), "expires_at" := Number(Unix(now + cfg.requestTtl))]];
      return ch.a;
    }

    /** What the callback does once it holds the stored request, up to the deferred delete. */
    method CompleteLogin(q: CallbackQuery, row: AuthRequest, now: int, ch: Choice) returns (reply: Reply)
      requires (hide *; Valid())
      modifies this, store
      ensures Valid()
      ensures var o := OnFound(cfg, old(State()), q, row, now, ch);
              && o.next.Some?
              && if o.next.value.Provisioning? then
                   && o.reply == None && o.next.value == Provisioning(row.id, Looking, o.next.value.identity, o.next.value.issuer, ch.a)
                   && var (db, r) := Ensure(cfg, o.shared.db, o.next.value.identity, o.next.value.issuer, now);
                   && State() == o.shared.(db := db)
                   && reply == if r.Ok? then SetupPage(o.next.value.issuer, o.next.value.identity.subject, ch.a, Some(r.value)) else HttpError(500)
                 else o.next == Some(Dropping(row.id)) && State() == o.shared && o.reply == Some(reply)
    {
      hide CompleteAuth, LoginAllowed, Ensure, HashToken, SetupPayload;
      var login := Authenticate(q, row.backendState, ch.login);
      if login.None? {
        store.CreateAuditEvent(BackendLoginRejected, "", row.me, row.clientId, now);
        return HttpError(401);
      }
      var identity := login.value.identity;
      if row.backendState.setup {
        reply := RenderSetupIdentity(identity, cfg.IssuerOf(row.backend), now, ch);
        return;
      }
      reply := GrantLogin(q, row, login.value, now, ch);
    }

    /** A login to sign in: refused, sent to consent, or given a code. */
    method GrantLogin(ghost q: CallbackQuery, row: AuthRequest, login: IdToken, now: int, ch: Choice) returns (reply: Reply)
      requires (hide *; Valid()) && CompleteAuth(q, row.backendState, ch.login) == Some(login) && !row.backendState.setup
      modifies store
      ensures Valid()
      ensures var o := OnFound(cfg, old(State()), q, row, now, ch);
              o.shared == State() && o.reply == Some(reply) && o.next == Some(Dropping(row.id))
    {
      hide LoginAllowed, HashToken, CompleteAuth;
      var identity := login.identity;
      var profile := if row.backendState.owner.Some? then Some(DynamicProfile(row.me, identity)) else row.profile;
      var allowed := CheckIdentity(row, identity);
      if !allowed {
        store.CreateAuditEvent(IdentityClaimRejected, identity.subject, row.me, row.clientId, now);
        return HttpError(403);
      }
      if cfg.consentRequired {
        var ok := store.CreateConsentRequest(
          ConsentRequest(ch.a, ch.b, row.me, row.clientId, row.redirectUri, row.scope, row.clientState, row.challenge, row.challengeMethod,
                         profile, identity.subject, now + cfg.codeTtl, now));
        if !ok {
          return HttpError(500);
        }
        store.CreateAuditEvent(ConsentRequired, identity.subject, row.me, row.clientId, now);
        return ToConsent(ch.a);
      }
      var answer := IssueCodeAndRedirect(row.me, row.clientId, row.redirectUri, row.scope, row.clientState, row.challenge, row.challengeMethod,
                                         profile, identity.subject, now, ch);
      return if answer.Some? then answer.value else HttpError(500);
    }

    /** `supply` holds the draws this request may need, and the provider's answer with them. */
    method HandleCallback(backend: string, q: CallbackQuery, now: int, supply: seq<Choice>)
      returns (reply: Reply, draws: seq<Choice>)
      requires (hide *; Valid()) && |supply| >= |cfg.backends.Keys| + 8
      modifies this, store
      ensures Valid() && Taken(draws, supply)
      ensures Orderly(cfg, old(State()), Arrived(Callback(backend, q)), now, draws)
      ensures (State(), Some(reply)) == Drive(cfg, old(State()), Arrived(Callback(backend, q)), now, draws)
    {
      hide Drive, Advance, Reaches, Orderly, OnFound, Ensure, StepsLeft;
      ghost var s, p := State(), Arrived(Callback(backend, q));
      if q.state == "" {
        draws := [supply[0]];
        DriveArrived(cfg, s, Callback(backend, q), now, draws);
        CallbackEnds(cfg, s, backend, q, now, supply[0]);
        return HttpError(400), draws;
      }
      var row, tried := FindAuthRequest(backend, q, now, supply);
      if row.None? {
        return HttpError(400), tried;
      }
      var rest := supply[|tried|..|tried| + 7];
      draws := tried + rest;
      ReachesDrive(cfg, s, p, now, tried, s, Found(q, row.value), rest);
      SixStepsLeft(q, row.value);
      EnoughDraws(cfg, s, Found(q, row.value), now, rest);
      ReachesOrderly(cfg, s, p, now, tried, s, Found(q, row.value), rest);
      DriveFound(cfg, s, q, row.value, now, rest);
      reply := CompleteLogin(q, row.value, now, rest[0]);
      ghost var o := OnFound(cfg, s, q, row.value, now, rest[0]);
      if o.next.value.Provisioning? {
        DriveEnsure(cfg, o.shared, o.next.value, now, rest[1..]);
      } else {
        DriveDrops(cfg, o.shared, row.value.id, now, rest[1..]);
      }
      store.DeleteAuthRequest(row.value.id);
    }

    // ---- Profile edits and the tester ------------------------------------------------------------

    method OpenSetupIdentity(value: string, now: int) returns (owner: Option<Owner>)
      ensures owner == OpenSetup(vault, value, now)
    {
      if value !in vault {
        return None;
      }
      var payload := vault[value];
      var state := Owner(TextField(payload, "issuer"), TextField(payload, "subject"));
      if state.issuer == "" || state.subject == "" || Unix(now) > NumberField(payload, "expires_at") {
        return None;
      }
      return Some(state);
    }

    method HandleManagedProfileUpdate(form: ProfileForm, now: int, c0: Choice, c1: Choice) returns (reply: Reply)
      requires (hide *; Valid())
      modifies store
      ensures Valid() && (State(), Some(reply)) == Drive(cfg, old(State()), Arrived(EditProfile(form)), now, [c0, c1])
    {
      hide Drive, Advance, OpenSetup, WebsiteOf, TrimSpace, ValidText, KnownAccent, ProfilesKeyed, UniqueStates, GetManagedProfileByIdentity,
        UpdateManagedProfile, ManagedProfileUrl;
      DriveArrived(cfg, State(), EditProfile(form), now, [c0, c1]);
      assert [c0, c1][1..] == [c1];
      if !cfg.managedEnabled {
        return HttpError(404);
      }
      var identity := OpenSetupIdentity(form.credential, now);
      if identity.None? {
        return HttpError(401);
      }
      var found := store.GetManagedProfileByIdentity(identity.value);
      if found.None? {
        return HttpError(404);
      }
      var profile := found.value;
      var displayName, bio := TrimSpace(form.displayName), TrimSpace(form.bio);
      if displayName == "" || !ValidText(displayName, 80, false) {
        return HttpError(400);
      }
      if !ValidText(bio, 280, true) {
        return HttpError(400);
      }
      var websiteUrl := WebsiteOf(cfg, form.websiteUrl);
      if websiteUrl.None? {
        return HttpError(400);
      }
      var accent := TrimSpace(form.accent);
      if !KnownAccent(accent) {
        return HttpError(400);
      }
      profile := profile.(displayName := displayName);
      profile := profile.(bio := bio);
      profile := profile.(websiteUrl := websiteUrl.value);
      profile := profile.(accent := accent);
      profile := profile.(customized := true);
      DriveEditing(cfg, State(), profile, form.credential, now, now, c1);
      profile := profile.(updatedAt := now);
      var ok := store.UpdateManagedProfile(profile);
      if !ok {
        return HttpError(500);
      }
      var me := ManagedProfileUrl(cfg, profile.handle);
      store.CreateAuditEvent(ManagedProfileUpdated, profile.subject, me, "", now);
      return ToProfile(me);
    }

    method HandleTestStart(target: Target, now: int, ch: Choice) returns (reply: Reply)
      requires (hide *; Valid())
      modifies this
      ensures Valid() && (State(), Some(reply)) == Drive(cfg, old(State()), Arrived(StartTest(target)), now, [ch])
    {
      hide Drive, Advance;
      DriveArrived(cfg, State(), StartTest(target), now, [ch]);
      vault := vault[ch.a := TesterPayload(cfg, target, ch.b, ch.c, now)];
      return TesterStarted(ch.a);
    }

    /** The tester's own callback takes only a live tester cookie with the state that came back. */
    method CheckTestCallback(cookie: string, state: string, now: int) returns (ok: bool)
      ensures ok <==> OpenTester(vault, cookie, now) == Some(state)
    {
      if cookie !in vault {
        return false;
      }
      var payload := vault[cookie];
      var expected := TextField(payload, "state");
      if expected == "" || Unix(now) > NumberField(payload, "expires_at") {
        return false;
      }
      return state == expected;
    }
  }

  /** The search after the draws `tried`: it goes on among `todo`, or has ended with a refusal. */
  ghost predicate Searched(cfg: Config, s: Shared, backend: string, q: CallbackQuery, now: int, tried: seq<Choice>, todo: set<string>) {
    if todo != {} then Reaches(cfg, s, Arrived(Callback(backend, q)), now, tried, s, Searching(q, todo))
    else
      && Drive(cfg, s, Arrived(Callback(backend, q)), now, tried) == (s, Some(HttpError(400)))
      && Orderly(cfg, s, Arrived(Callback(backend, q)), now, tried)
  }

  lemma SearchBegins(cfg: Config, s: Shared, backend: string, q: CallbackQuery, now: int, ch: Choice, todo: set<string>)
    requires q.state != "" && todo == if backend == "" then cfg.backends.Keys else {backend} * cfg.backends.Keys
    ensures Searched(cfg, s, backend, q, now, [ch], todo) && |todo| <= |cfg.backends.Keys|
  {
    SmallerSet(todo, cfg.backends.Keys);
    if todo != {} {
      ReachesNow(cfg, s, Arrived(Callback(backend, q)), now);
      ReachesMore(cfg, s, Arrived(Callback(backend, q)), now, [], s, Arrived(Callback(backend, q)), ch, s, Searching(q, todo));
      assert [] + [ch] == [ch];
    } else {
      DriveArrived(cfg, s, Callback(backend, q), now, [ch]);
    }
  }

  /** One backend asked for the request with this state. */
  lemma TriedOne(cfg: Config, s: Shared, backend: string, q: CallbackQuery, now: int, tried: seq<Choice>, todo: set<string>, ch: Choice)
    requires (hide *; Searched(cfg, s, backend, q, now, tried, todo)) && ch.backend in todo
    ensures var r := GetAuthRequest(s.db, ch.backend, q.state, now);
            if r.Ok? then Reaches(cfg, s, Arrived(Callback(backend, q)), now, tried + [ch], s, Found(q, r.value))
            else Searched(cfg, s, backend, q, now, tried + [ch], todo - {ch.backend})
  {
    hide Drive, Reaches, GetAuthRequest;
    var p, r := Arrived(Callback(backend, q)), GetAuthRequest(s.db, ch.backend, q.state, now);
    if r.Ok? {
      ReachesMore(cfg, s, p, now, tried, s, Searching(q, todo), ch, s, Found(q, r.value));
    } else if todo - {ch.backend} != {} {
      ReachesMore(cfg, s, p, now, tried, s, Searching(q, todo), ch, s, Searching(q, todo - {ch.backend}));
    } else {
      ReachesDrive(cfg, s, p, now, tried, s, Searching(q, todo), [ch]);
      DriveLast(cfg, s, Searching(q, todo), now, [ch]);
      ReachesOrderly(cfg, s, p, now, tried, s, Searching(q, todo), [ch]);
    }
  }

  lemma CallbackEnds(cfg: Config, s: Shared, backend: string, q: CallbackQuery, now: int, ch: Choice)
    requires q.state == ""
    ensures Orderly(cfg, s, Arrived(Callback(backend, q)), now, [ch])
  {
  }

  lemma SixStepsLeft(q: CallbackQuery, row: AuthRequest)
    ensures StepsLeft(Found(q, row)) == 6 && Straight(Found(q, row))
  {
  }

  lemma SmallerSet(a: set<string>, b: set<string>)
    requires a <= b
    ensures |a| <= |b|
  {
    if a != b {
      assert |b - a| + |a| == |b|;
    }
  }
}
