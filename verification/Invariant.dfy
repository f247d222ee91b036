/** What holds in every reachable state: the history is coherent, and tables and requests in flight agree with it. */
module Invariant {
  import opened Prelude
  import opened Library
  import opened Config
  import opened Handles
  import opened Tables
  import opened Handlers
  import opened Runs

  /** If the text parses, with a scheme and a host, the canonical form of its URL prints and parses to itself. */
  predicate PrintsBack(lib: Library, raw: string) {
    lib.parse(raw).Some? && lib.parse(raw).value.IsAbs() && !lib.parse(raw).value.NoHost() ==>
      lib.parse(lib.render(Canonical(lib.parse(raw).value))) == Some(Canonical(lib.parse(raw).value))
  }

  ghost predicate CanonicalLaw(lib: Library) {
    forall raw :: PrintsBack(lib, raw)
  }

  // ---- Where each record comes from -----------------------------------------------------

  /** The request's profile was recognised in the way `source` says. */
  ghost predicate SignInOk(cfg: Config, owners: map<string, Owner>, q: AuthorizeQuery, si: SignIn) {
    && RequestedMe(cfg, q).Some?
    && var asked := RequestedMe(cfg, q).value;
    && (CanonicalLaw(cfg.lib) ==> si.me == asked)
    && si.profile.url == si.me
    && match si.source {
         case Static =>
           && si.owner.None? && ProfileByMe(cfg, asked).Some?
           && (!cfg.managedEnabled || HandleInUrl(cfg, asked) == "" ==> si.backend == ProfileByMe(cfg, asked).value.backend)
         case Managed(handle) =>
           && si.owner.Some? && handle in owners && owners[handle] == si.owner.value
           && si.me == ManagedProfileUrl(cfg, handle) && si.backend == cfg.managedBackend
         case Page =>
           && si.owner.Some? && si.backend == cfg.dynamicBackend
           && si.owner.value.issuer == cfg.IssuerOf(cfg.dynamicBackend)
       }
  }

  /** What `/authorize` checked before it let a request through. */
  ghost predicate QueryOk(cfg: Config, q: AuthorizeQuery) {
    && ScopeAllowed(q.scope) && ChallengeAccepted(cfg, q) && q.state != ""
    && ValidateHttpsUrl(cfg.lib, q.clientId, cfg.allowHttp).Some?
    && (cfg.clientDiscovery || RedirectOnClientOrigin(cfg.lib, q.clientId, q.redirectUri, cfg.allowHttp))
  }

  ghost predicate RequestOk(cfg: Config, owners: map<string, Owner>, id: string, o: RequestOrigin) {
    hide *;
    && o.row.id == id
    && o.row.expiresAt == Whole(o.at + cfg.requestTtl)
    && if o.row.backendState.setup then o.query.None?
       else
         && o.query.Some?
         && var q, row := o.query.value, o.row;
         && QueryOk(cfg, q)
         && row.clientId == q.clientId && row.redirectUri == q.redirectUri && row.scope == q.scope
         && row.clientState == q.state && row.challenge == q.challenge && row.challengeMethod == q.challengeMethod
         && row.profile.Some?
         && SignInOk(cfg, owners, q, SignIn(row.me, row.backend, row.profile.value, o.source, row.backendState.owner))
  }

  /** The login answered this request's nonce, and its identity may sign in as the requested profile. */
  ghost predicate LoginOk(cfg: Config, o: RequestOrigin, login: IdToken) {
    && !o.row.backendState.setup
    && login.nonce == o.row.backendState.nonce
    && LoginAllowed(cfg, o.row, login.identity)
  }

  ghost predicate ConsentOk(cfg: Config, requests: map<string, RequestOrigin>, id: string, c: ConsentOrigin) {
    && c.row.id == id && cfg.consentRequired
    && c.row.expiresAt == Whole(c.at + cfg.codeTtl)
    && c.requestId in requests && LoginOk(cfg, requests[c.requestId], c.login)
    && var r := requests[c.requestId].row;
    && c.row.me == r.me && c.row.clientId == r.clientId && c.row.redirectUri == r.redirectUri && c.row.scope == r.scope
    && c.row.clientState == r.clientState && c.row.challenge == r.challenge && c.row.challengeMethod == r.challengeMethod
    && c.row.subject == c.login.identity.subject && c.row.profile == SignedInProfile(r, c.login.identity)
  }

  ghost predicate CodeOk(cfg: Config, requests: map<string, RequestOrigin>, consents: map<string, ConsentOrigin>, hash: string, k: CodeOrigin) {
    && k.row.codeHash == hash && k.row.usedAt == None
    && k.row.expiresAt == Whole(k.at + cfg.codeTtl)
    && match k.cause {
         case Login(requestId, login) =>
           && !cfg.consentRequired
           && requestId in requests && LoginOk(cfg, requests[requestId], login)
           && var r := requests[requestId].row;
           && k.row.me == r.me && k.row.clientId == r.clientId && k.row.redirectUri == r.redirectUri && k.row.scope == r.scope
           && k.row.challenge == r.challenge && k.row.challengeMethod == r.challengeMethod
           && k.row.profile == SignedInProfile(r, login.identity)
         case Approval(consentId, csrf) =>
           && consentId in consents && csrf == consents[consentId].row.csrfToken
           && var c := consents[consentId].row;
           && k.row.me == c.me && k.row.clientId == c.clientId && k.row.redirectUri == c.redirectUri && k.row.scope == c.scope
           && k.row.challenge == c.challenge && k.row.challengeMethod == c.challengeMethod && k.row.profile == c.profile
       }
  }

  ghost predicate TokenOk(cfg: Config, codes: map<string, CodeOrigin>, fates: map<string, Fate>, hash: string, t: TokenOrigin) {
    && t.row.tokenHash == hash && t.row.revokedAt == None
    && t.row.expiresAt == Whole(t.at + cfg.tokenTtl) && t.row.createdAt == Whole(t.at)
    && t.codeHash in codes && t.codeHash in fates && fates[t.codeHash] == Exchanged(hash)
    && var k := codes[t.codeHash].row;
    && t.row.me == k.me && t.row.clientId == k.clientId && t.row.scope == k.scope && t.row.profile == k.profile
    && PresentationOk(cfg, k, t.form, true)
  }

  // ---- The history as a whole -----------------------------------------------------------------

  ghost predicate RequestsTraced(cfg: Config, requests: map<string, RequestOrigin>, owners: map<string, Owner>) {
    hide *;
    forall id :: id in requests ==> RequestOk(cfg, owners, id, requests[id])
  }

  ghost predicate ConsentsTraced(cfg: Config, consents: map<string, ConsentOrigin>, requests: map<string, RequestOrigin>) {
    forall id :: id in consents ==> ConsentOk(cfg, requests, id, consents[id])
  }

  ghost predicate CodesTraced(cfg: Config, codes: map<string, CodeOrigin>, consents: map<string, ConsentOrigin>, requests: map<string, RequestOrigin>) {
    forall k :: k in codes ==> CodeOk(cfg, requests, consents, k, codes[k])
  }

  ghost predicate TokensTraced(cfg: Config, tokens: map<string, TokenOrigin>, codes: map<string, CodeOrigin>, fates: map<string, Fate>) {
    forall t :: t in tokens ==> TokenOk(cfg, codes, fates, t, tokens[t])
  }

  /** Every code has one fate; it was presented once, before its expiry, exactly when that fate is settled. */
  ghost predicate FatesOk(codes: map<string, CodeOrigin>, fates: map<string, Fate>, presented: map<string, int>, tokens: map<string, TokenOrigin>) {
    && fates.Keys == codes.Keys && presented.Keys <= codes.Keys
    && (forall k :: k in fates ==> (fates[k].Unredeemed? <==> k !in presented))
    && (forall k :: k in presented ==> presented[k] < codes[k].row.expiresAt)
    && (forall k :: k in fates && fates[k].Exchanged? ==> fates[k].tokenHash in tokens && tokens[fates[k].tokenHash].codeHash == k)
  }

  /** An edit was checked against a login of the same owner, less than the credential's lifetime and a second before. */
  ghost predicate CredentialGood(cfg: Config, logins: map<string, LoginOrigin>, credential: string, owner: Owner, checkedAt: int) {
    && credential in logins && logins[credential].owner == owner
    && logins[credential].at <= checkedAt < logins[credential].at + cfg.requestTtl + SECOND
  }

  ghost predicate EditsTraced(cfg: Config, edits: seq<Edit>, logins: map<string, LoginOrigin>) {
    forall i :: 0 <= i < |edits| ==>
      CredentialGood(cfg, logins, edits[i].credential, edits[i].owner, edits[i].checkedAt) && edits[i].checkedAt <= edits[i].at
  }

  // ---- The tables agree with the history ----------------------------------------------------------

  ghost predicate RequestsKept(rows: map<string, AuthRequest>, requests: map<string, RequestOrigin>) {
    forall id :: id in rows ==> id in requests && rows[id] == requests[id].row
  }

  ghost predicate ConsentsKept(rows: map<string, ConsentRequest>, consents: map<string, ConsentOrigin>) {
    forall id :: id in rows ==> id in consents && rows[id] == consents[id].row
  }

  /** A stored code is as issued and marked used exactly when presented; an unpresented one is missing only after expiry. */
  ghost predicate CodesKept(now: int, rows: map<string, AuthorizationCode>, codes: map<string, CodeOrigin>, presented: map<string, int>) {
    && (forall k :: k in rows ==>
          k in codes && rows[k].(usedAt := None) == codes[k].row && (rows[k].usedAt.Some? <==> k in presented))
    && (forall k :: k in codes && k !in presented && now < codes[k].row.expiresAt ==> k in rows)
  }

  /** A stored token is as issued and marked revoked exactly when it was; it is missing only after expiry. */
  ghost predicate TokensKept(now: int, rows: map<string, AccessToken>, tokens: map<string, TokenOrigin>, revoked: set<string>) {
    && (forall t :: t in rows ==>
          t in tokens && rows[t].(revokedAt := None) == tokens[t].row && (rows[t].revokedAt.Some? <==> t in revoked))
    && (forall t :: t in tokens && now < tokens[t].row.expiresAt ==> t in rows)
    && revoked <= tokens.Keys
  }

  /** Every handle ever given out still belongs to the same owner, and there are no others. */
  ghost predicate ProfilesKept(rows: map<string, ManagedProfile>, owners: map<string, Owner>) {
    && rows.Keys == owners.Keys
    && (forall h :: h in rows ==> rows[h].handle == h && rows[h].Holder() == owners[h] && GoodHandle(h) && !Reserved(h))
    && (forall g, h :: g in owners && h in owners && owners[g] == owners[h] ==> g == h)
  }

  /** A customized profile was edited by a request its owner authorized. */
  ghost predicate CustomKept(rows: map<string, ManagedProfile>, edits: seq<Edit>) {
    forall h :: h in rows && rows[h].customized ==> EditedBy(edits, rows[h].Holder())
  }

  ghost predicate EditedBy(edits: seq<Edit>, owner: Owner) {
    exists i :: 0 <= i < |edits| && edits[i].owner == owner
  }

  /** Whatever opens as a setup credential is the record of a setup login. */
  ghost predicate VaultKept(cfg: Config, vault: map<string, Payload>, logins: map<string, LoginOrigin>) {
    forall v :: v in vault ==>
      if v in logins then vault[v] == SetupPayload(cfg, logins[v].owner, logins[v].at) else TextField(vault[v], "issuer") == ""
  }

  /** All keys and states come from secrets drawn before. */
  ghost predicate SecretsDrawn(issued: set<string>, digests: set<string>, h: History, vault: map<string, Payload>) {
    && RequestsDrawn(issued, h.requests) && StatesDiffer(h.requests)
    && KeysIn(h.consents, issued) && KeysIn(h.logins, issued) && KeysIn(vault, issued)
    && KeysIn(h.codes, digests) && KeysIn(h.tokens, digests)
  }

  ghost predicate KeysIn<K, V>(m: map<K, V>, s: set<K>) {
    forall k :: k in m ==> k in s
  }

  ghost predicate RequestsDrawn(issued: set<string>, requests: map<string, RequestOrigin>) {
    forall id :: id in requests ==> id in issued && requests[id].row.backendState.state in issued
  }

  ghost predicate StatesDiffer(requests: map<string, RequestOrigin>) {
    forall a, b :: a in requests && b in requests && a != b ==>
      requests[a].row.backendState.state != requests[b].row.backendState.state
  }

  // ---- Requests in flight -----------------------------------------------------------------------------

  ghost predicate StageOk(owner: Owner, stage: Stage) {
    match stage
    case Looking => true
    case Renaming(row) => row.Holder() == owner && !row.customized
    case Creating(row) => row.Holder() == owner && !row.customized && GoodHandle(row.handle) && !Reserved(row.handle)
    case Rechecking(row) => row.Holder() == owner && !row.customized && GoodHandle(row.handle) && !Reserved(row.handle)
    case Suffixing(row) => row.Holder() == owner && !row.customized && GoodHandle(row.handle) && !Reserved(row.handle)
  }

  ghost predicate HasHandle(owners: map<string, Owner>, owner: Owner) {
    exists g :: g in owners && owners[g] == owner
  }

  /** The handles tried, and why the first one was given up; a renamed profile exists. */
  ghost predicate CandidatesOk(cfg: Config, owners: map<string, Owner>, identity: Identity, issuer: string, stage: Stage) {
    var owner, first := Owner(issuer, identity.subject), DesiredHandle(cfg.lib, identity, issuer);
    match stage
    case Looking => true
    case Renaming(_) => HasHandle(owners, owner)
    case Creating(row) => row.handle == first
    case Rechecking(row) => row.handle == first && (first in owners || HasHandle(owners, owner))
    case Suffixing(row) =>
      && row.handle == SuffixedHandle(first, cfg.lib.tag(issuer, identity.subject))
      && first in owners && owners[first] != owner
  }

  ghost predicate ProcOk(cfg: Config, h: History, pid: nat, now: int, p: Proc) {
    hide *;
    match p
    case Bound(q, si) => QueryOk(cfg, q) && SignInOk(cfg, h.owners, q, si)
    case Found(q, row) => row.id in h.requests && h.requests[row.id].row == row && row.backendState.state == q.state
    case Provisioning(requestId, stage, identity, issuer, credential) =>
      && requestId in h.requests && StageOk(Owner(issuer, identity.subject), stage)
      && CandidatesOk(cfg, h.owners, identity, issuer, stage)
      && credential in h.logins && h.logins[credential].owner == Owner(issuer, identity.subject)
    case Dropping(id) => id in h.requests
    case DroppingConsent(id) => id in h.consents
    case Matched(row, csrf, _) => row.id in h.consents && h.consents[row.id].row == row && csrf == row.csrfToken
    case Redeemed(row, form) =>
      && row.codeHash in h.codes && h.codes[row.codeHash].row == row
      && row.codeHash in h.fates && h.fates[row.codeHash] == Redeeming(pid)
      && PresentationOk(cfg, row, form, true) && row.codeHash == HashToken(cfg.lib, form.code)
    case Editing(profile, credential, checkedAt) =>
      CredentialGood(cfg, h.logins, credential, profile.Holder(), checkedAt) && checkedAt <= now
    case _ => true
  }

  ghost predicate ProcsOk(cfg: Config, h: History, now: int, procs: map<nat, Proc>) {
    hide *;
    forall pid :: pid in procs ==> ProcOk(cfg, h, pid, now, procs[pid])
  }

  // ---- All together --------------------------------------------------------------------------------------

  ghost predicate Traced(cfg: Config, h: History) {
    && RequestsTraced(cfg, h.requests, h.owners)
    && ConsentsTraced(cfg, h.consents, h.requests)
    && CodesTraced(cfg, h.codes, h.consents, h.requests)
    && TokensTraced(cfg, h.tokens, h.codes, h.fates)
    && FatesOk(h.codes, h.fates, h.presented, h.tokens)
    && EditsTraced(cfg, h.edits, h.logins)
  }

  ghost predicate Kept(cfg: Config, now: int, s: Shared, h: History) {
    && RequestsKept(s.db.requests, h.requests)
    && ConsentsKept(s.db.consents, h.consents)
    && CodesKept(now, s.db.codes, h.codes, h.presented)
    && TokensKept(now, s.db.tokens, h.tokens, h.revoked)
    && ProfilesKept(s.db.profiles, h.owners)
    && CustomKept(s.db.profiles, h.edits)
    && VaultKept(cfg, s.vault, h.logins)
  }

  ghost predicate LoginsPast(logins: map<string, LoginOrigin>, now: int) {
    forall c :: c in logins ==> logins[c].at <= now
  }

  ghost predicate Inv(cfg: Config, s: Sys) {
    && Traced(cfg, s.hist)
    && Kept(cfg, s.now, s.shared, s.hist)
    && SecretsDrawn(s.issued, s.digests, s.hist, s.shared.vault)
    && LoginsPast(s.hist.logins, s.now)
    && ProcsOk(cfg, s.hist, s.now, s.procs)
  }
}
