/**
 The requests of an honest sign-in, each served from beginning to end by
 itself: what each finds when it comes in time, and what it leaves for the
 next. `HonestRun` puts them together in a run.
 */
module HonestVisits {
  import opened Prelude
  import opened Library
  import opened Config
  import opened Tables
  import opened Handlers
  import opened Invariant
  import opened Preservation
  import opened Discovery
  import opened Atomic

  // ---- /authorize ------------------------------------------------------------------------

  /** What a well-behaved client asks: a supported scope, an accepted redirect, and the S256 challenge of a verifier. */
  ghost predicate HonestQuery(cfg: Config, q: AuthorizeQuery, fetched: Fetched, verifier: string) {
    && q.responseType == "code" && q.state != "" && ScopeAllowed(q.scope)
    && ValidateHttpsUrl(cfg.lib, q.clientId, cfg.allowHttp).Some?
    && RedirectAccepted(cfg.lib, q.clientId, q.redirectUri, cfg.allowHttp, if cfg.clientDiscovery then fetched.declared else None)
    && verifier != "" && q.challenge == cfg.lib.digest(verifier) && q.challengeMethod == "S256"
  }

  /** The requested URL belongs to a profile this bridge signs in, at a backend it has. */
  ghost predicate Known(cfg: Config, db: Db, q: AuthorizeQuery, fetched: Fetched, si: SignIn) {
    hide *;
    && RequestedMe(cfg, q).Some?
    && var me := RequestedMe(cfg, q).value;
    && !ManagedProfileForMe(cfg, db, me).UnknownHandle?
    && (ProfileByMe(cfg, me).Some? || ManagedProfileForMe(cfg, db, me).OwnedBy? || cfg.dynamicEnabled)
    && ResolveProfile(cfg, db, me, fetched.page) == Some(si) && si.backend in cfg.backends
  }

  lemma HonestQueryPasses(cfg: Config, db: Db, q: AuthorizeQuery, fetched: Fetched, verifier: string, si: SignIn)
    requires HonestQuery(cfg, q, fetched, verifier) && Known(cfg, db, q, fetched, si)
    ensures CheckAuthorize(cfg, db, q, fetched) == None
  {
    hide RequestedMe, ManagedProfileForMe, ScopeAllowed, ProfileByMe, RedirectAccepted, ValidateHttpsUrl, WellFormedChallenge;
    HonestChallenge(cfg.lib, verifier);
  }

  /** The stored form of the request this query leads to. */
  function StoredRequest(cfg: Config, q: AuthorizeQuery, si: SignIn, now: int, ch: Choice): AuthRequest {
    RequestRow(cfg, q, si, now, ch).(expiresAt := Whole(now + cfg.requestTtl), createdAt := Whole(now))
  }

  lemma PassesOn(cfg: Config, s: Shared, q: AuthorizeQuery, fetched: Fetched, verifier: string, si: SignIn, now: int, ch: Choice)
    requires HonestQuery(cfg, q, fetched, verifier) && Known(cfg, s.db, q, fetched, si)
    ensures Advance(cfg, s, Arrived(Authorize(q, fetched)), now, ch) == Continue(s, Bound(q, si))
  {
    HonestQueryPasses(cfg, s.db, q, fetched, verifier, si);
    hide HonestQuery, CheckAuthorize, ResolveProfile, RequestedMe, ManagedProfileForMe, ProfileByMe;
  }

  lemma SendsToProvider(cfg: Config, s: Shared, q: AuthorizeQuery, si: SignIn, now: int, ch: Choice)
    requires (hide *; ch.reachable) && ch.a !in s.db.requests
    ensures var o := Advance(cfg, s, Bound(q, si), now, ch);
            && o.next == None && o.reply == Some(ToProvider(si.backend, ch.b, ch.c))
            && ch.a in o.shared.db.requests && o.shared.db.requests[ch.a] == StoredRequest(cfg, q, si, now, ch)
  {
  }

  lemma Authorizes(cfg: Config, s: Shared, q: AuthorizeQuery, fetched: Fetched, verifier: string, si: SignIn, now: int, c0: Choice, c1: Choice)
    requires (hide *; HonestQuery(cfg, q, fetched, verifier)) && Known(cfg, s.db, q, fetched, si)
    requires c1.reachable && c1.a !in s.db.requests
    ensures var (t, reply) := Drive(cfg, s, Arrived(Authorize(q, fetched)), now, [c0, c1]);
            && reply == Some(ToProvider(si.backend, c1.b, c1.c))
            && c1.a in t.db.requests && t.db.requests[c1.a] == StoredRequest(cfg, q, si, now, c1)
  {
    hide Advance, Drive, HonestQuery, Known;
    PassesOn(cfg, s, q, fetched, verifier, si, now, c0);
    SendsToProvider(cfg, s, q, si, now, c1);
    DriveMore(cfg, s, Arrived(Authorize(q, fetched)), now, [c0, c1]);
    DriveLast(cfg, s, Bound(q, si), now, [c1]);
    assert [c0, c1][1..] == [c1];
  }

  // ---- The callback ------------------------------------------------------------------------

  /** The request's row is stored, alone with its state, and not expired. */
  ghost predicate Waiting(db: Db, row: AuthRequest, now: int) {
    row.id in db.requests && db.requests[row.id] == row && UniqueStates(db.requests) && now <= row.expiresAt
  }

  lemma LookupFinds(db: Db, row: AuthRequest, now: int)
    requires Waiting(db, row, now)
    ensures GetAuthRequest(db, row.backend, row.backendState.state, now) == Ok(row)
  {
    FoundByState(db, row.id, row.backendState.state);
  }

  lemma LookupElsewhere(db: Db, row: AuthRequest, now: int, backend: string)
    requires Waiting(db, row, now) && backend != row.backend
    ensures GetAuthRequest(db, backend, row.backendState.state, now) == Err(NotFound)
  {
    var r := FindRequest(db.requests, backend, row.backendState.state);
  }

  /** The search tries the backends in the order drawn, each once, until the request's own. */
  ghost predicate SearchOrder(todo: set<string>, draws: seq<Choice>, k: nat, target: string)
    decreases k
  {
    && k < |draws| && draws[0].backend in todo
    && if k == 0 then draws[0].backend == target
       else draws[0].backend != target && SearchOrder(todo - {draws[0].backend}, draws[1..], k - 1, target)
  }

  lemma SearchStep(cfg: Config, s: Shared, q: CallbackQuery, todo: set<string>, row: AuthRequest, now: int, ch: Choice)
    requires Waiting(s.db, row, now) && q.state == row.backendState.state && row.backend in todo && ch.backend in todo
    ensures Advance(cfg, s, Searching(q, todo), now, ch) ==
            Continue(s, if ch.backend == row.backend then Found(q, row) else Searching(q, todo - {ch.backend}))
  {
    hide Waiting, GetAuthRequest;
    if ch.backend == row.backend {
      LookupFinds(s.db, row, now);
    } else {
      LookupElsewhere(s.db, row, now, ch.backend);
      assert row.backend in todo - {ch.backend};
    }
  }

  lemma {:induction false} SearchFinds(cfg: Config, s: Shared, q: CallbackQuery, todo: set<string>, row: AuthRequest, now: int, draws: seq<Choice>, k: nat)
    requires (hide Advance; Waiting(s.db, row, now)) && q.state == row.backendState.state && row.backend in todo
    requires SearchOrder(todo, draws, k, row.backend)
    ensures Drive(cfg, s, Searching(q, todo), now, draws) == Drive(cfg, s, Found(q, row), now, draws[k + 1..])
    decreases k
  {
    hide Advance, Drive, Waiting;
    SearchStep(cfg, s, q, todo, row, now, draws[0]);
    DriveMore(cfg, s, Searching(q, todo), now, draws);
    if k > 0 {
      SearchFinds(cfg, s, q, todo - {draws[0].backend}, row, now, draws[1..], k - 1);
      assert draws[1..][k..] == draws[k + 1..];
    }
  }

  /** The provider's answer as it comes back: the state handed out, a code and no error, and a token for the nonce handed out. */
  ghost predicate HonestLogin(cfg: Config, row: AuthRequest, backend: string, q: CallbackQuery, login: IdToken) {
    && q.state == row.backendState.state && q.state != "" && q.error == "" && q.code != ""
    && login.nonce == row.backendState.nonce && !row.backendState.setup && LoginAllowed(cfg, row, login.identity)
    && row.backend in cfg.backends && (backend == "" || backend == row.backend)
  }

  function StoredConsent(cfg: Config, row: AuthRequest, identity: Identity, now: int, ch: Choice): ConsentRequest {
    ConsentRow(cfg, row, identity, now, ch).(expiresAt := Whole(now + cfg.codeTtl), createdAt := Whole(now))
  }

  function StoredCode(row: AuthorizationCode, cfg: Config, now: int): AuthorizationCode {
    row.(expiresAt := Whole(now + cfg.codeTtl), createdAt := Whole(now), usedAt := None)
  }

  /** What the login step leaves for the next request. */
  ghost predicate LoginStored(cfg: Config, row: AuthRequest, identity: Identity, now: int, ch: Choice, db: Db, reply: Option<Reply>) {
    if cfg.consentRequired then
      reply == Some(ToConsent(ch.a)) && ch.a in db.consents && db.consents[ch.a] == StoredConsent(cfg, row, identity, now, ch)
    else
      var hash := HashToken(cfg.lib, ch.a);
      && reply == Some(ToClient(row.redirectUri, ch.a, row.clientState, cfg.issuer))
      && hash in db.codes && db.codes[hash] == StoredCode(CodeRowFromRequest(cfg, row, identity, now, ch), cfg, now)
  }

  lemma LoginStep(cfg: Config, s: Shared, backend: string, q: CallbackQuery, row: AuthRequest, login: IdToken, now: int, ch: Choice)
    requires HonestLogin(cfg, row, backend, q, login) && ch.login == Some(login)
    requires ch.a !in s.db.consents && HashToken(cfg.lib, ch.a) !in s.db.codes
    ensures var o := Advance(cfg, s, Found(q, row), now, ch);
            o.next == Some(Dropping(row.id)) && LoginStored(cfg, row, login.identity, now, ch, o.shared.db, o.reply)
  {
    hide LoginAllowed;
  }

  lemma DropStep(cfg: Config, s: Shared, id: string, now: int, ch: Choice)
    ensures var o := Advance(cfg, s, Dropping(id), now, ch);
            o.next == None && o.reply == None && o.shared.db.consents == s.db.consents && o.shared.db.codes == s.db.codes
  {
  }

  lemma CallbackGoesOn(cfg: Config, s: Shared, backend: string, q: CallbackQuery, row: AuthRequest, login: IdToken, now: int, ch: Choice)
    requires HonestLogin(cfg, row, backend, q, login)
    ensures var todo := if backend == "" then cfg.backends.Keys else {backend};
            row.backend in todo && Advance(cfg, s, Arrived(Callback(backend, q)), now, ch) == Continue(s, Searching(q, todo))
  {
    hide LoginAllowed;
    if backend != "" {
      assert {backend} * cfg.backends.Keys == {backend};
    }
    assert row.backend in if backend == "" then cfg.backends.Keys else {backend};
  }

  /** The whole callback: one draw to arrive, `k + 1` to find the request, one to log in and one to clean up. */
  lemma LogsIn(cfg: Config, s: Shared, backend: string, q: CallbackQuery, row: AuthRequest, login: IdToken, now: int, draws: seq<Choice>, k: nat)
    requires (hide *; Waiting(s.db, row, now)) && HonestLogin(cfg, row, backend, q, login)
    requires |draws| == k + 4 && SearchOrder(if backend == "" then cfg.backends.Keys else {backend}, draws[1..], k, row.backend)
    requires var ch := draws[k + 2];
             ch.login == Some(login) && ch.a !in s.db.consents && HashToken(cfg.lib, ch.a) !in s.db.codes
    ensures var (t, reply) := Drive(cfg, s, Arrived(Callback(backend, q)), now, draws);
            LoginStored(cfg, row, login.identity, now, draws[k + 2], t.db, reply)
  {
    hide Advance, Drive, Waiting, HonestLogin, SearchOrder;
    var todo := if backend == "" then cfg.backends.Keys else {backend};
    CallbackGoesOn(cfg, s, backend, q, row, login, now, draws[0]);
    DriveMore(cfg, s, Arrived(Callback(backend, q)), now, draws);
    assert q.state == row.backendState.state by {
      StateMatches(cfg, row, backend, q, login);
    }
    SearchFinds(cfg, s, q, todo, row, now, draws[1..], k);
    var rest := draws[1..][k + 1..];
    assert rest == [draws[k + 2], draws[k + 3]];
    LoginStep(cfg, s, backend, q, row, login, now, rest[0]);
    DriveMore(cfg, s, Found(q, row), now, rest);
    var o := Advance(cfg, s, Found(q, row), now, rest[0]);
    DropStep(cfg, o.shared, row.id, now, rest[1]);
    DriveLast(cfg, o.shared, Dropping(row.id), now, rest[1..]);
  }

  lemma StateMatches(cfg: Config, row: AuthRequest, backend: string, q: CallbackQuery, login: IdToken)
    requires HonestLogin(cfg, row, backend, q, login)
    ensures q.state == row.backendState.state
  {
  }

  // ---- Consent --------------------------------------------------------------------------------

  lemma ApprovalStep(cfg: Config, s: Shared, row: ConsentRequest, now: int, ch: Choice)
    requires (hide *; HashToken(cfg.lib, ch.a) !in s.db.codes)
    ensures var o := Advance(cfg, s, Matched(row, row.csrfToken, "approve"), now, ch);
            && o.next == Some(DroppingConsent(row.id)) && o.reply == Some(ToClient(row.redirectUri, ch.a, row.clientState, cfg.issuer))
            && HashToken(cfg.lib, ch.a) in o.shared.db.codes
            && o.shared.db.codes[HashToken(cfg.lib, ch.a)] == StoredCode(CodeRowFromConsent(cfg, row, now, ch), cfg, now)
  {
  }

  lemma DropConsentStep(cfg: Config, s: Shared, id: string, now: int, ch: Choice)
    ensures var o := Advance(cfg, s, DroppingConsent(id), now, ch);
            o.next == None && o.reply == None && o.shared.db.codes == s.db.codes
  {
  }

  lemma MatchStep(cfg: Config, s: Shared, row: ConsentRequest, now: int, ch: Choice)
    requires (hide *; row.id in s.db.consents) && s.db.consents[row.id] == row && now < row.expiresAt
    ensures Advance(cfg, s, Arrived(ConsentAnswer(row.id, row.csrfToken, "approve")), now, ch) == Continue(s, Matched(row, row.csrfToken, "approve"))
  {
  }

  lemma Approves(cfg: Config, s: Shared, row: ConsentRequest, now: int, c0: Choice, c1: Choice, c2: Choice)
    requires (hide *; row.id in s.db.consents) && s.db.consents[row.id] == row && now < row.expiresAt && HashToken(cfg.lib, c1.a) !in s.db.codes
    ensures var (t, reply) := Drive(cfg, s, Arrived(ConsentAnswer(row.id, row.csrfToken, "approve")), now, [c0, c1, c2]);
            && reply == Some(ToClient(row.redirectUri, c1.a, row.clientState, cfg.issuer))
            && HashToken(cfg.lib, c1.a) in t.db.codes
            && t.db.codes[HashToken(cfg.lib, c1.a)] == StoredCode(CodeRowFromConsent(cfg, row, now, c1), cfg, now)
  {
    hide Advance, Drive, HashToken;
    MatchStep(cfg, s, row, now, c0);
    DriveMore(cfg, s, Arrived(ConsentAnswer(row.id, row.csrfToken, "approve")), now, [c0, c1, c2]);
    assert [c0, c1, c2][1..] == [c1, c2] && [c1, c2][1..] == [c2];
    ApprovalStep(cfg, s, row, now, c1);
    DriveMore(cfg, s, Matched(row, row.csrfToken, "approve"), now, [c1, c2]);
    var o := Advance(cfg, s, Matched(row, row.csrfToken, "approve"), now, c1);
    DropConsentStep(cfg, o.shared, row.id, now, c2);
    DriveLast(cfg, o.shared, DroppingConsent(row.id), now, [c2]);
  }

  // ---- Exchange and introspection ----------------------------------------------------------------

  /** The exchange a client makes of the code it was sent. */
  function HonestForm(q: AuthorizeQuery, code: string, verifier: string): CodeForm {
    CodeForm("authorization_code", code, q.clientId, q.redirectUri, verifier)
  }

  /** The code's row carries the honest query. */
  ghost predicate CodeFor(cfg: Config, q: AuthorizeQuery, me: string, code: string, row: AuthorizationCode) {
    && row.codeHash == HashToken(cfg.lib, code) && row.usedAt == None && row.me == me
    && row.clientId == q.clientId && row.redirectUri == q.redirectUri && row.scope == q.scope && row.challenge == q.challenge
  }

  lemma RedeemStep(cfg: Config, s: Shared, q: AuthorizeQuery, verifier: string, me: string, code: string, row: AuthorizationCode, now: int, ch: Choice)
    requires (hide *; verifier != "") && q.challenge == cfg.lib.digest(verifier) && code != "" && CodeFor(cfg, q, me, code, row)
    requires row.codeHash in s.db.codes && s.db.codes[row.codeHash] == row && now < row.expiresAt
    ensures var o := Advance(cfg, s, Arrived(Exchange(HonestForm(q, code, verifier))), now, ch);
            o.reply == None && o.next == Some(Redeemed(row, HonestForm(q, code, verifier))) && o.shared.db.tokens == s.db.tokens
  {
    HonestChallenge(cfg.lib, verifier);
  }

  lemma GrantStep(cfg: Config, s: Shared, row: AuthorizationCode, form: CodeForm, now: int, ch: Choice)
    requires (hide *; HashToken(cfg.lib, ch.a) !in s.db.tokens)
    ensures var o := Advance(cfg, s, Redeemed(row, form), now, ch);
            && o.next == None && o.reply == Some(TokenGranted(ch.a, row.scope, row.me, row.profile))
            && HashToken(cfg.lib, ch.a) in o.shared.db.tokens
            && o.shared.db.tokens[HashToken(cfg.lib, ch.a)]
               == AccessToken(HashToken(cfg.lib, ch.a), row.me, row.clientId, row.scope, row.profile, Whole(now + cfg.tokenTtl), Whole(now), None)
  {
  }

  lemma Exchanges(cfg: Config, s: Shared, q: AuthorizeQuery, verifier: string, me: string, code: string, row: AuthorizationCode, now: int,
                  c0: Choice, c1: Choice)
    requires (hide *; verifier != "") && q.challenge == cfg.lib.digest(verifier) && code != "" && CodeFor(cfg, q, me, code, row)
    requires row.codeHash in s.db.codes && s.db.codes[row.codeHash] == row && now < row.expiresAt
    requires HashToken(cfg.lib, c1.a) !in s.db.tokens
    ensures var (t, reply) := Drive(cfg, s, Arrived(Exchange(HonestForm(q, code, verifier))), now, [c0, c1]);
            && reply == Some(TokenGranted(c1.a, q.scope, me, row.profile))
            && HashToken(cfg.lib, c1.a) in t.db.tokens
            && t.db.tokens[HashToken(cfg.lib, c1.a)]
               == AccessToken(HashToken(cfg.lib, c1.a), me, q.clientId, q.scope, row.profile, Whole(now + cfg.tokenTtl), Whole(now), None)
  {
    hide Advance, Drive, HashToken;
    var p := Arrived(Exchange(HonestForm(q, code, verifier)));
    RedeemStep(cfg, s, q, verifier, me, code, row, now, c0);
    DriveMore(cfg, s, p, now, [c0, c1]);
    assert [c0, c1][1..] == [c1];
    var o := Advance(cfg, s, p, now, c0);
    GrantStep(cfg, o.shared, row, HonestForm(q, code, verifier), now, c1);
    DriveLast(cfg, o.shared, o.next.value, now, [c1]);
  }

  lemma Introspects(cfg: Config, s: Shared, token: string, row: AccessToken, now: int, ch: Choice)
    requires (hide *; token != "") && row.tokenHash == HashToken(cfg.lib, token) && row.tokenHash in s.db.tokens && s.db.tokens[row.tokenHash] == row
    requires row.revokedAt == None && now < row.expiresAt
    ensures Drive(cfg, s, Arrived(Introspect(token)), now, [ch]).1
            == Some(TokenActive(row.clientId, row.scope, row.me, Unix(row.expiresAt), Unix(row.createdAt), row.profile))
  {
    DriveLast(cfg, s, Arrived(Introspect(token)), now, [ch]);
    hide Drive;
  }

  // ---- One request after the other --------------------------------------------------------------------------------

  /** Everything the person and the client bring along. */
  datatype Guest = Guest(query: AuthorizeQuery, fetched: Fetched, verifier: string, signIn: SignIn, backend: string, callback: CallbackQuery, login: IdToken)

  ghost predicate Welcome(cfg: Config, db: Db, g: Guest) {
    HonestQuery(cfg, g.query, g.fetched, g.verifier) && Known(cfg, db, g.query, g.fetched, g.signIn)
  }

  /** The code of this sign-in went to the client, and its row is stored. */
  ghost predicate CodeSent(cfg: Config, g: Guest, at: int, code: string, db: Db, reply: Option<Reply>) {
    var hash := HashToken(cfg.lib, code);
    && reply == Some(ToClient(g.query.redirectUri, code, g.query.state, cfg.issuer))
    && hash in db.codes && CodeFor(cfg, g.query, g.signIn.me, code, db.codes[hash]) && db.codes[hash].expiresAt == Whole(at + cfg.codeTtl)
  }

  /** The profile signed in is the one asked for. */
  lemma ResolvedMe(cfg: Config, db: Db, q: AuthorizeQuery, page: Option<string>)
    requires (hide *; CanonicalLaw(cfg.lib)) && RequestedMe(cfg, q).Some?
    ensures var r := ResolveProfile(cfg, db, RequestedMe(cfg, q).value, page); r.Some? ==> r.value.me == RequestedMe(cfg, q).value
  {
    hide RequestedMe, CanonicalLaw, HandleInUrl, DiscoverIdentity, FindProfile;
    AskedIsCanonical(cfg, q);
    DiscoveredMeIsAsked(cfg, q, page);
  }

  lemma VerifierAnswers(cfg: Config, db: Db, g: Guest)
    requires Welcome(cfg, db, g)
    ensures g.verifier != "" && g.query.challenge == cfg.lib.digest(g.verifier)
  {
    hide Known;
  }
}
