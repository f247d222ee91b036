/**
 The periodic cleanup cannot be noticed. A run with cleanups is simulated by
 the run without them: whatever a cleanup has deleted, the other run's
 handlers reject anyway. The one exception is an authorization request looked
 up at the very instant it expires.
 */
module Cleanup {
  import opened Prelude
  import opened Text
  import opened Library
  import opened Config
  import opened Handles
  import opened Discovery
  import opened Tables
  import opened Handlers
  import opened Runs
  import opened Invariant
  import opened HistorySteps
  import opened Preservation
  import opened Traces

  // ---- The simulation relation --------------------------------------------------------

  ghost predicate RequestsCovered(now: int, s: map<string, AuthRequest>, t: map<string, AuthRequest>) {
    && (forall k :: k in s ==> k in t && t[k] == s[k])
    && (forall k :: k in t && k !in s ==> t[k].expiresAt <= now)
  }

  ghost predicate ConsentsCovered(now: int, s: map<string, ConsentRequest>, t: map<string, ConsentRequest>) {
    && (forall k :: k in s ==> k in t && t[k] == s[k])
    && (forall k :: k in t && k !in s ==> t[k].expiresAt <= now)
  }

  ghost predicate CodesCovered(now: int, s: map<string, AuthorizationCode>, t: map<string, AuthorizationCode>) {
    && (forall k :: k in s ==> k in t && t[k] == s[k])
    && (forall k :: k in t && k !in s ==> t[k].expiresAt <= now || t[k].usedAt.Some?)
  }

  ghost predicate TokensCovered(now: int, s: map<string, AccessToken>, t: map<string, AccessToken>) {
    && (forall k :: k in s ==> k in t && t[k] == s[k])
    && (forall k :: k in t && k !in s ==> t[k].expiresAt <= now)
  }

  /** The tables of `s` are those of `t` without some rows that are expired or used. */
  ghost predicate Covers(now: int, s: Db, t: Db) {
    && s.profiles == t.profiles && s.audit == t.audit
    && RequestsCovered(now, s.requests, t.requests) && ConsentsCovered(now, s.consents, t.consents)
    && CodesCovered(now, s.codes, t.codes) && TokensCovered(now, s.tokens, t.tokens)
  }

  ghost predicate SharedCovers(now: int, s: Shared, t: Shared) {
    s.vault == t.vault && Covers(now, s.db, t.db)
  }

  /** Two outcomes nobody can tell apart. */
  ghost predicate SameOutcome(now: int, o: Outcome, p: Outcome) {
    o.reply == p.reply && o.next == p.next && o.note == p.note && SharedCovers(now, o.shared, p.shared)
  }

  /** The secrets drawn next are in no table. */
  ghost predicate Unused(cfg: Config, db: Db, ch: Choice) {
    && ch.a !in db.requests && ch.a !in db.consents
    && HashToken(cfg.lib, ch.a) !in db.codes && HashToken(cfg.lib, ch.a) !in db.tokens
  }

  lemma StoredStatesDiffer(cfg: Config, s: Sys)
    requires Inv(cfg, s)
    ensures UniqueStates(s.shared.db.requests)
  {
    hide Traced, ConsentsKept, CodesKept, TokensKept, ProfilesKept, CustomKept, VaultKept, ProcsOk, LoginsPast;
    forall a, b | a in s.shared.db.requests && b in s.shared.db.requests
                  && s.shared.db.requests[a].backendState.state == s.shared.db.requests[b].backendState.state
      ensures a == b
    {
      assert s.hist.requests[a].row.backendState.state == s.hist.requests[b].row.backendState.state;
    }
  }

  lemma FreshIsUnused(cfg: Config, s: Sys, ch: Choice)
    requires Ready(cfg, s, ch)
    ensures Unused(cfg, s.shared.db, ch) && UniqueStates(s.shared.db.requests)
  {
    hide Traced, ProfilesKept, CustomKept, VaultKept, ProcsOk, LoginsPast;
    StoredStatesDiffer(cfg, s);
  }

  // ---- Lookups -----------------------------------------------------------------------------

  /** The lookup finds a request at the very instant it expires. */
  ghost predicate ExpiringNow(db: Db, backend: string, state: string, now: int) {
    var r := GetAuthRequest(db, backend, state, now); r.Ok? && r.value.expiresAt == now
  }

  /** Looking among fewer rows finds the same row, if it is there. */
  lemma FewerRows(rows: map<string, AuthRequest>, rows': map<string, AuthRequest>, backend: string, state: string)
    requires SubMap(rows, rows') && UniqueStates(rows')
    ensures var found := FindRequest(rows', backend, state);
            FindRequest(rows, backend, state) == if found.Some? && found.value in rows then found else None
  {
    var few := FindRequest(rows, backend, state);
    if few.Some? {
      assert HasState(rows'[few.value], backend, state);
    }
  }

  lemma RequestLookup(now: int, s: Db, t: Db, backend: string, state: string)
    requires RequestsCovered(now, s.requests, t.requests) && UniqueStates(t.requests)
    requires !ExpiringNow(t, backend, state, now)
    ensures var a, b := GetAuthRequest(s, backend, state, now), GetAuthRequest(t, backend, state, now);
            a == b || (a.Err? && b.Err?)
  {
    FewerRows(s.requests, t.requests, backend, state);
  }

  /** One delete of expired requests changes a lookup exactly when it finds a row at its last instant. */
  lemma CleanupSeenAtExpiry(db: Db, at: int, now: int, backend: string, state: string)
    requires UniqueStates(db.requests) && at <= now
    ensures GetAuthRequest(Purge(db, Requests, at), backend, state, now).Ok? != GetAuthRequest(db, backend, state, now).Ok?
            <==> ExpiringNow(db, backend, state, now) && now <= Whole(at)
  {
    FewerRows(Purge(db, Requests, at).requests, db.requests, backend, state);
  }

  /** All four deletes of one cleanup. */
  function PurgeEverything(db: Db, at: int): Db {
    Purge(Purge(Purge(Purge(db, Requests, at), Consents, at), Codes, at), Tokens, at)
  }

  /** Every expiry in the tables is a whole second. */
  ghost predicate WholeExpiries(db: Db) {
    && (forall k :: k in db.requests ==> db.requests[k].expiresAt == Whole(db.requests[k].expiresAt))
    && (forall k :: k in db.consents ==> db.consents[k].expiresAt == Whole(db.consents[k].expiresAt))
    && (forall k :: k in db.codes ==> db.codes[k].expiresAt == Whole(db.codes[k].expiresAt))
    && (forall k :: k in db.tokens ==> db.tokens[k].expiresAt == Whole(db.tokens[k].expiresAt))
  }

  lemma WholeTwice(t: int)
    ensures Whole(Whole(t)) == Whole(t)
  {
  }

  /** They are in every state of every run. */
  lemma ExpiriesAreWhole(cfg: Config, s: Sys)
    requires Inv(cfg, s)
    ensures WholeExpiries(s.shared.db)
  {
    hide RequestsTraced, ConsentsTraced, CodesTraced, TokensTraced, RequestsKept, ConsentsKept, CodesKept, TokensKept,
      FatesOk, EditsTraced, ProfilesKept, CustomKept, VaultKept, SecretsDrawn, ProcsOk, LoginsPast, Whole;
    WholeRequests(cfg, s.shared.db.requests, s.hist);
    WholeConsents(cfg, s.shared.db.consents, s.hist);
    WholeCodes(cfg, s.now, s.shared.db.codes, s.hist);
    WholeTokens(cfg, s.now, s.shared.db.tokens, s.hist);
  }

  lemma WholeRequests(cfg: Config, rows: map<string, AuthRequest>, h: History)
    requires (hide *; RequestsTraced(cfg, h.requests, h.owners)) && RequestsKept(rows, h.requests)
    ensures forall k :: k in rows ==> rows[k].expiresAt == Whole(rows[k].expiresAt)
  {
    hide Whole, SignInOk, QueryOk;
    forall k | k in rows
      ensures rows[k].expiresAt == Whole(rows[k].expiresAt)
    {
      assert RequestOk(cfg, h.owners, k, h.requests[k]);
      WholeTwice(h.requests[k].at + cfg.requestTtl);
    }
  }

  lemma WholeConsents(cfg: Config, rows: map<string, ConsentRequest>, h: History)
    requires ConsentsTraced(cfg, h.consents, h.requests) && ConsentsKept(rows, h.consents)
    ensures forall k :: k in rows ==> rows[k].expiresAt == Whole(rows[k].expiresAt)
  {
    hide Whole, LoginOk;
    forall k | k in rows
      ensures rows[k].expiresAt == Whole(rows[k].expiresAt)
    {
      assert ConsentOk(cfg, h.requests, k, h.consents[k]);
      WholeTwice(h.consents[k].at + cfg.codeTtl);
    }
  }

  lemma WholeCodes(cfg: Config, now: int, rows: map<string, AuthorizationCode>, h: History)
    requires (hide *; CodesTraced(cfg, h.codes, h.consents, h.requests)) && CodesKept(now, rows, h.codes, h.presented)
    ensures forall k :: k in rows ==> rows[k].expiresAt == Whole(rows[k].expiresAt)
  {
    hide Whole, LoginOk;
    forall k | k in rows
      ensures rows[k].expiresAt == Whole(rows[k].expiresAt)
    {
      assert CodeOk(cfg, h.requests, h.consents, k, h.codes[k]);
      assert rows[k].expiresAt == rows[k].(usedAt := None).expiresAt;
      WholeTwice(h.codes[k].at + cfg.codeTtl);
    }
  }

  lemma WholeTokens(cfg: Config, now: int, rows: map<string, AccessToken>, h: History)
    requires TokensTraced(cfg, h.tokens, h.codes, h.fates) && TokensKept(now, rows, h.tokens, h.revoked)
    ensures forall k :: k in rows ==> rows[k].expiresAt == Whole(rows[k].expiresAt)
  {
    hide Whole, PresentationOk;
    forall k | k in rows
      ensures rows[k].expiresAt == Whole(rows[k].expiresAt)
    {
      assert TokenOk(cfg, h.codes, h.fates, k, h.tokens[k]);
      assert rows[k].expiresAt == rows[k].(revokedAt := None).expiresAt;
      WholeTwice(h.tokens[k].at + cfg.tokenTtl);
    }
  }

  /**
   In every state of every run: what a cleanup leaves is live and what was live it leaves, at every
   instant of the second it was given. No lookup then answers that something is expired or a code
   used, every lookup of a consent, code or token that succeeded still does, revoked tokens stay
   revoked while they last, and the lookup of an authorization request is lost exactly at the instant
   it expires.
   */
  lemma CleanupLeavesLive(cfg: Config, states: seq<Sys>, events: seq<Event>, i: nat, at: int, now: int, key: string, backend: string, state: string)
    requires (hide *; IsRun(cfg, states, events)) && i < |states| && Unix(now) == Unix(at)
    ensures var db, after := states[i].shared.db, PurgeEverything(states[i].shared.db, at);
            && GetAuthRequest(after, backend, state, now) != Err(Expired)
            && (GetAuthRequest(after, backend, state, now).Ok?
                <==> GetAuthRequest(db, backend, state, now).Ok? && !ExpiringNow(db, backend, state, now))
            && GetConsentRequest(after, key, now) == (if GetConsentRequest(db, key, now).Ok? then GetConsentRequest(db, key, now) else Err(NotFound))
            && ConsumeAuthorizationCode(after, key, now).1
               == (if ConsumeAuthorizationCode(db, key, now).1.Ok? then ConsumeAuthorizationCode(db, key, now).1 else Err(NotFound))
            && GetAccessToken(after, key, now)
               == (if key in db.tokens && db.tokens[key].expiresAt <= now then Err(NotFound) else GetAccessToken(db, key, now))
  {
    hide Initial, Enabled, Step, Inv, Purge, PurgeEverything, UniqueStates, GetAuthRequest, GetConsentRequest, ConsumeAuthorizationCode,
      GetAccessToken, WholeExpiries, Unix;
    var db := states[i].shared.db;
    RunKeepsInv(cfg, states, events, i);
    StoredStatesDiffer(cfg, states[i]);
    ExpiriesAreWhole(cfg, states[i]);
    PurgedTables(db, at);
    RequestsLeft(db, PurgeEverything(db, at), at, now, backend, state);
    ConsentsLeft(db, PurgeEverything(db, at), at, now, key);
    CodesLeft(db, PurgeEverything(db, at), at, now, key);
    TokensLeft(db, PurgeEverything(db, at), at, now, key);
  }

  /** Each table is left as its own delete leaves it. */
  lemma PurgedTables(db: Db, at: int)
    ensures var after := PurgeEverything(db, at);
            && after.requests == Purge(db, Requests, at).requests && after.consents == Purge(db, Consents, at).consents
            && after.codes == Purge(db, Codes, at).codes && after.tokens == Purge(db, Tokens, at).tokens
  {
  }

  /** In the second of `now`, a whole-second expiry has come exactly when it is at most that second. */
  lemma SameSecond(at: int, now: int, expiry: int)
    requires Unix(now) == Unix(at) && expiry == Whole(expiry)
    ensures expiry <= Whole(at) <==> expiry <= now
  {
  }

  lemma RequestsLeft(db: Db, after: Db, at: int, now: int, backend: string, state: string)
    requires UniqueStates(db.requests) && WholeExpiries(db) && Unix(now) == Unix(at) && after.requests == Purge(db, Requests, at).requests
    ensures GetAuthRequest(after, backend, state, now) != Err(Expired)
    ensures GetAuthRequest(after, backend, state, now).Ok?
            <==> GetAuthRequest(db, backend, state, now).Ok? && !ExpiringNow(db, backend, state, now)
  {
    hide Whole, UniqueStates;
    FewerRows(after.requests, db.requests, backend, state);
    var found := FindRequest(db.requests, backend, state);
    if found.Some? {
      SameSecond(at, now, db.requests[found.value].expiresAt);
    }
  }

  lemma ConsentsLeft(db: Db, after: Db, at: int, now: int, key: string)
    requires WholeExpiries(db) && Unix(now) == Unix(at) && after.consents == Purge(db, Consents, at).consents
    ensures GetConsentRequest(after, key, now) == if GetConsentRequest(db, key, now).Ok? then GetConsentRequest(db, key, now) else Err(NotFound)
  {
    hide Whole;
    if key in db.consents {
      SameSecond(at, now, db.consents[key].expiresAt);
    }
  }

  lemma CodesLeft(db: Db, after: Db, at: int, now: int, key: string)
    requires WholeExpiries(db) && Unix(now) == Unix(at) && after.codes == Purge(db, Codes, at).codes
    ensures ConsumeAuthorizationCode(after, key, now).1
            == if ConsumeAuthorizationCode(db, key, now).1.Ok? then ConsumeAuthorizationCode(db, key, now).1 else Err(NotFound)
  {
    hide Whole;
    if key in db.codes {
      SameSecond(at, now, db.codes[key].expiresAt);
    }
  }

  lemma TokensLeft(db: Db, after: Db, at: int, now: int, key: string)
    requires WholeExpiries(db) && Unix(now) == Unix(at) && after.tokens == Purge(db, Tokens, at).tokens
    ensures GetAccessToken(after, key, now)
            == if key in db.tokens && db.tokens[key].expiresAt <= now then Err(NotFound) else GetAccessToken(db, key, now)
  {
    hide Whole;
    if key in db.tokens {
      SameSecond(at, now, db.tokens[key].expiresAt);
    }
  }

  // ---- Requests of each kind -------------------------------------------------------------------

  lemma ManagedSame(cfg: Config, now: int, s: Db, t: Db)
    requires Covers(now, s, t)
    ensures forall me :: ManagedProfileForMe(cfg, s, me) == ManagedProfileForMe(cfg, t, me)
  {
    hide RequestsCovered, ConsentsCovered, CodesCovered, TokensCovered, HandleInUrl;
  }

  lemma AuthorizeSame(cfg: Config, s: Shared, t: Shared, q: AuthorizeQuery, fetched: Fetched, now: int)
    requires SharedCovers(now, s, t)
    ensures SameOutcome(now, OnAuthorize(cfg, s, q, fetched, now), OnAuthorize(cfg, t, q, fetched, now))
  {
    hide RequestsCovered, ConsentsCovered, CodesCovered, TokensCovered, ManagedProfileForMe, RequestedMe, ScopeAllowed, ChallengeAccepted,
      ProfileByMe, ValidateHttpsUrl, RedirectAccepted, DiscoverIdentity;
    ManagedSame(cfg, now, s.db, t.db);
  }

  lemma LookingSame(cfg: Config, s: Shared, t: Shared, p: Proc, now: int)
    requires (hide *; SharedCovers(now, s, t)) && p.Provisioning?
    ensures SameOutcome(now, OnLooking(cfg, s, p, now), OnLooking(cfg, t, p, now))
  {
    hide Covers, TrimSpace, NewProfile, ClaimedName, GetManagedProfileByIdentity;
    HolderSame(now, s.db, t.db, Owner(p.issuer, p.identity.subject));
  }

  lemma CoversProfiles(now: int, s: Db, t: Db, rows: map<string, ManagedProfile>)
    requires Covers(now, s, t)
    ensures s.profiles == t.profiles && Covers(now, s.(profiles := rows), t.(profiles := rows))
  {
    hide RequestsCovered, ConsentsCovered, CodesCovered, TokensCovered;
  }

  lemma CreateProfileSame(now: int, s: Db, t: Db, row: ManagedProfile)
    requires Covers(now, s, t)
    ensures CreateManagedProfile(s, row).1 == CreateManagedProfile(t, row).1
    ensures Covers(now, CreateManagedProfile(s, row).0, CreateManagedProfile(t, row).0)
  {
    hide Covers, Held, Whole;
    CoversProfiles(now, s, t, s.profiles[Lower(row.handle) := row.(createdAt := Whole(row.createdAt), updatedAt := Whole(row.updatedAt))]);
    hide Lower;
  }

  lemma UpdateProfileSame(now: int, s: Db, t: Db, row: ManagedProfile)
    requires Covers(now, s, t)
    ensures UpdateManagedProfile(s, row).1 == UpdateManagedProfile(t, row).1
    ensures Covers(now, UpdateManagedProfile(s, row).0, UpdateManagedProfile(t, row).0)
  {
    hide Covers, Held, Rewritten;
    CoversProfiles(now, s, t, Rewritten(s.profiles, row));
  }

  lemma HolderSame(now: int, s: Db, t: Db, owner: Owner)
    requires Covers(now, s, t)
    ensures GetManagedProfileByIdentity(s, owner) == GetManagedProfileByIdentity(t, owner)
  {
    hide RequestsCovered, ConsentsCovered, CodesCovered, TokensCovered;
  }

  lemma ProvisioningSame(cfg: Config, s: Shared, t: Shared, p: Proc, now: int)
    requires (hide *; SharedCovers(now, s, t)) && p.Provisioning?
    ensures SameOutcome(now, OnProvisioning(cfg, s, p, now), OnProvisioning(cfg, t, p, now))
  {
    hide Covers, OnLooking, SuffixedHandle, GetManagedProfileByIdentity, UpdateManagedProfile, CreateManagedProfile;
    match p.stage
    case Looking => LookingSame(cfg, s, t, p, now);
    case Renaming(row) => UpdateProfileSame(now, s.db, t.db, row);
    case Creating(row) => CreateProfileSame(now, s.db, t.db, row);
    case Rechecking(row) => HolderSame(now, s.db, t.db, Owner(p.issuer, p.identity.subject));
    case Suffixing(row) => CreateProfileSame(now, s.db, t.db, row);
  }

  lemma EditSame(cfg: Config, s: Shared, t: Shared, form: ProfileForm, now: int)
    requires SharedCovers(now, s, t)
    ensures SameOutcome(now, OnEditProfile(cfg, s, form, now), OnEditProfile(cfg, t, form, now))
  {
    hide Covers, EditOk, OpenSetup, WebsiteOf, GetManagedProfileByIdentity;
    var owner := OpenSetup(s.vault, form.credential, now);
    if owner.Some? {
      HolderSame(now, s.db, t.db, owner.value);
    }
  }

  lemma EditingSame(cfg: Config, s: Shared, t: Shared, profile: ManagedProfile, credential: string, checkedAt: int, now: int)
    requires SharedCovers(now, s, t)
    ensures SameOutcome(now, OnEditing(cfg, s, profile, credential, checkedAt, now), OnEditing(cfg, t, profile, credential, checkedAt, now))
  {
    hide RequestsCovered, ConsentsCovered, CodesCovered, TokensCovered, UpdateManagedProfile, CreateManagedProfile, ManagedProfileUrl;
    UpdateProfileSame(now, s.db, t.db, profile.(updatedAt := now));
  }

  lemma RequestAdded(now: int, s: map<string, AuthRequest>, t: map<string, AuthRequest>, k: string, row: AuthRequest)
    requires RequestsCovered(now, s, t)
    ensures RequestsCovered(now, s[k := row], t[k := row])
  {
  }

  lemma ConsentAdded(now: int, s: map<string, ConsentRequest>, t: map<string, ConsentRequest>, k: string, row: ConsentRequest)
    requires ConsentsCovered(now, s, t)
    ensures ConsentsCovered(now, s[k := row], t[k := row])
  {
  }

  lemma CodeAdded(now: int, s: map<string, AuthorizationCode>, t: map<string, AuthorizationCode>, k: string, row: AuthorizationCode)
    requires CodesCovered(now, s, t)
    ensures CodesCovered(now, s[k := row], t[k := row])
  {
  }

  lemma TokenAdded(now: int, s: map<string, AccessToken>, t: map<string, AccessToken>, k: string, row: AccessToken)
    requires TokensCovered(now, s, t)
    ensures TokensCovered(now, s[k := row], t[k := row])
  {
  }

  /** Two stores after the same insertion of a row under a new key. */
  ghost predicate SameInsert(now: int, s: (Db, bool), t: (Db, bool)) {
    s.1 && t.1 && Covers(now, s.0, t.0)
  }

  lemma CreateRequestSame(cfg: Config, now: int, s: Db, t: Db, row: AuthRequest, ch: Choice)
    requires Covers(now, s, t) && Unused(cfg, s, ch) && Unused(cfg, t, ch) && row.id == ch.a
    ensures SameInsert(now, CreateAuthRequest(s, row), CreateAuthRequest(t, row))
    ensures CreateAuthRequest(s, row).0.requests[ch.a] == CreateAuthRequest(t, row).0.requests[ch.a]
  {
    hide RequestsCovered, ConsentsCovered, CodesCovered, TokensCovered, HashToken;
    var stored := row.(expiresAt := Whole(row.expiresAt), createdAt := Whole(row.createdAt));
    RequestAdded(now, s.requests, t.requests, row.id, stored);
  }

  lemma CreateConsentSame(cfg: Config, now: int, s: Db, t: Db, row: ConsentRequest, ch: Choice)
    requires Covers(now, s, t) && Unused(cfg, s, ch) && Unused(cfg, t, ch) && row.id == ch.a
    ensures SameInsert(now, CreateConsentRequest(s, row), CreateConsentRequest(t, row))
    ensures CreateConsentRequest(s, row).0.consents[ch.a] == CreateConsentRequest(t, row).0.consents[ch.a]
  {
    hide RequestsCovered, ConsentsCovered, CodesCovered, TokensCovered, HashToken;
    var stored := row.(expiresAt := Whole(row.expiresAt), createdAt := Whole(row.createdAt));
    ConsentAdded(now, s.consents, t.consents, row.id, stored);
  }

  lemma CreateCodeSame(cfg: Config, now: int, s: Db, t: Db, row: AuthorizationCode, ch: Choice)
    requires Covers(now, s, t) && Unused(cfg, s, ch) && Unused(cfg, t, ch) && row.codeHash == HashToken(cfg.lib, ch.a)
    ensures SameInsert(now, CreateAuthorizationCode(s, row), CreateAuthorizationCode(t, row))
    ensures CreateAuthorizationCode(s, row).0.codes[row.codeHash] == CreateAuthorizationCode(t, row).0.codes[row.codeHash]
  {
    hide RequestsCovered, ConsentsCovered, CodesCovered, TokensCovered, HashToken;
    var stored := row.(expiresAt := Whole(row.expiresAt), createdAt := Whole(row.createdAt), usedAt := None);
    CodeAdded(now, s.codes, t.codes, row.codeHash, stored);
  }

  lemma CreateTokenSame(cfg: Config, now: int, s: Db, t: Db, row: AccessToken, ch: Choice)
    requires Covers(now, s, t) && Unused(cfg, s, ch) && Unused(cfg, t, ch) && row.tokenHash == HashToken(cfg.lib, ch.a)
    ensures SameInsert(now, CreateAccessToken(s, row), CreateAccessToken(t, row))
    ensures CreateAccessToken(s, row).0.tokens[row.tokenHash] == CreateAccessToken(t, row).0.tokens[row.tokenHash]
  {
    hide RequestsCovered, ConsentsCovered, CodesCovered, TokensCovered, HashToken;
    var stored := row.(expiresAt := Whole(row.expiresAt), createdAt := Whole(row.createdAt), revokedAt := None);
    TokenAdded(now, s.tokens, t.tokens, row.tokenHash, stored);
  }

  lemma LogSame(now: int, s: Shared, t: Shared, kind: AuditKind, subject: string, me: string, clientId: string)
    requires SharedCovers(now, s, t)
    ensures SharedCovers(now, Log(s, kind, subject, me, clientId, now), Log(t, kind, subject, me, clientId, now))
  {
  }

  lemma SetupSame(cfg: Config, s: Shared, t: Shared, now: int, ch: Choice)
    requires SharedCovers(now, s, t) && Unused(cfg, s.db, ch) && Unused(cfg, t.db, ch)
    ensures SameOutcome(now, OnSetup(cfg, s, now, ch), OnSetup(cfg, t, now, ch))
  {
    hide Unused, RequestsCovered, ConsentsCovered, CodesCovered, TokensCovered, HashToken, CreateAuthRequest, CreateConsentRequest,
      CreateAuthorizationCode, CreateAccessToken;
    var backend := if cfg.managedEnabled then cfg.managedBackend else cfg.dynamicBackend;
    CreateRequestSame(cfg, now, s.db, t.db,
      AuthRequest(ch.a, backend, BackendState(ch.b, ch.c, true, None), "", "", "", "", "", "", "", None, now + cfg.requestTtl, now), ch);
  }

  lemma BoundSame(cfg: Config, s: Shared, t: Shared, q: AuthorizeQuery, si: SignIn, now: int, ch: Choice)
    requires SharedCovers(now, s, t) && Unused(cfg, s.db, ch) && Unused(cfg, t.db, ch)
    ensures SameOutcome(now, OnBound(cfg, s, q, si, now, ch), OnBound(cfg, t, q, si, now, ch))
  {
    hide Unused, RequestsCovered, ConsentsCovered, CodesCovered, TokensCovered, HashToken, CreateAuthRequest, CreateConsentRequest,
      CreateAuthorizationCode, CreateAccessToken;
    CreateRequestSame(cfg, now, s.db, t.db, RequestRow(cfg, q, si, now, ch), ch);
  }

  lemma FoundSame(cfg: Config, s: Shared, t: Shared, q: CallbackQuery, row: AuthRequest, now: int, ch: Choice)
    requires SharedCovers(now, s, t) && Unused(cfg, s.db, ch) && Unused(cfg, t.db, ch)
    ensures SameOutcome(now, OnFound(cfg, s, q, row, now, ch), OnFound(cfg, t, q, row, now, ch))
  {
    hide Unused, RequestsCovered, ConsentsCovered, CodesCovered, TokensCovered, HashToken, CreateAuthRequest, CreateConsentRequest,
      CreateAuthorizationCode, CreateAccessToken, CompleteAuth, LoginAllowed, SetupPayload;
    var login := CompleteAuth(q, row.backendState, ch.login);
    if login.Some? {
      CreateConsentSame(cfg, now, s.db, t.db, ConsentRow(cfg, row, login.value.identity, now, ch), ch);
      CreateCodeSame(cfg, now, s.db, t.db, CodeRowFromRequest(cfg, row, login.value.identity, now, ch), ch);
    }
  }

  lemma MatchedSame(cfg: Config, s: Shared, t: Shared, row: ConsentRequest, csrf: string, decision: string, now: int, ch: Choice)
    requires SharedCovers(now, s, t) && Unused(cfg, s.db, ch) && Unused(cfg, t.db, ch)
    ensures SameOutcome(now, OnMatched(cfg, s, row, csrf, decision, now, ch), OnMatched(cfg, t, row, csrf, decision, now, ch))
  {
    hide Unused, RequestsCovered, ConsentsCovered, CodesCovered, TokensCovered, HashToken, CreateAuthRequest, CreateConsentRequest,
      CreateAuthorizationCode, CreateAccessToken;
    CreateCodeSame(cfg, now, s.db, t.db, CodeRowFromConsent(cfg, row, now, ch), ch);
  }

  lemma RedeemedSame(cfg: Config, s: Shared, t: Shared, row: AuthorizationCode, form: CodeForm, now: int, ch: Choice)
    requires SharedCovers(now, s, t) && Unused(cfg, s.db, ch) && Unused(cfg, t.db, ch)
    ensures SameOutcome(now, OnRedeemed(cfg, s, row, form, now, ch), OnRedeemed(cfg, t, row, form, now, ch))
  {
    hide Unused, RequestsCovered, ConsentsCovered, CodesCovered, TokensCovered, HashToken, CreateAuthRequest, CreateConsentRequest,
      CreateAuthorizationCode, CreateAccessToken;
    CreateTokenSame(cfg, now, s.db, t.db, TokenRow(cfg, row, now, ch), ch);
  }

  lemma SearchingSame(s: Shared, t: Shared, q: CallbackQuery, todo: set<string>, now: int, ch: Choice)
    requires SharedCovers(now, s, t) && UniqueStates(t.db.requests) && !ExpiringNow(t.db, ch.backend, q.state, now)
    ensures SameOutcome(now, OnSearching(s, q, todo, now, ch), OnSearching(t, q, todo, now, ch))
  {
    hide ConsentsCovered, CodesCovered, TokensCovered, GetAuthRequest;
    RequestLookup(now, s.db, t.db, ch.backend, q.state);
  }

  lemma ConsentLookup(now: int, s: Db, t: Db, id: string)
    requires Covers(now, s, t)
    ensures var a, b := GetConsentRequest(s, id, now), GetConsentRequest(t, id, now);
            a == b || (a.Err? && b.Err?)
  {
  }

  lemma ConsentPagesSame(s: Shared, t: Shared, id: string, csrf: string, decision: string, now: int)
    requires SharedCovers(now, s, t)
    ensures SameOutcome(now, OnConsentPage(s, id, now), OnConsentPage(t, id, now))
    ensures SameOutcome(now, OnConsentAnswer(s, id, csrf, decision, now), OnConsentAnswer(t, id, csrf, decision, now))
  {
    hide RequestsCovered, ConsentsCovered, CodesCovered, TokensCovered, GetConsentRequest;
    ConsentLookup(now, s.db, t.db, id);
  }

  lemma ConsumeSame(now: int, s: Db, t: Db, hash: string)
    requires Covers(now, s, t)
    ensures var (s', a), (t', b) := ConsumeAuthorizationCode(s, hash, now), ConsumeAuthorizationCode(t, hash, now);
            (a == b || (a.Err? && b.Err?)) && Covers(now, s', t')
  {
  }

  lemma ExchangeSame(cfg: Config, s: Shared, t: Shared, form: CodeForm, now: int)
    requires SharedCovers(now, s, t)
    ensures SameOutcome(now, OnExchange(cfg, s, form, now), OnExchange(cfg, t, form, now))
  {
    hide Covers, ConsumeAuthorizationCode, PresentationOk, HashToken, Log, RefusedClient;
    var hash := HashToken(cfg.lib, form.code);
    var (sdb, a) := ConsumeAuthorizationCode(s.db, hash, now);
    var (tdb, b) := ConsumeAuthorizationCode(t.db, hash, now);
    ConsumeSame(now, s.db, t.db, hash);
    LogSame(now, s, t, TokenExchangeRejected, "", "", form.clientId);
    if a.Ok? {
      LogSame(now, s.(db := sdb), t.(db := tdb), TokenExchangeRejected, "", a.value.me, RefusedClient(a.value, form));
    }
  }

  lemma CodeProfileSame(cfg: Config, s: Shared, t: Shared, form: CodeForm, now: int)
    requires SharedCovers(now, s, t)
    ensures SameOutcome(now, OnCodeProfile(cfg, s, form, now), OnCodeProfile(cfg, t, form, now))
  {
    hide Covers, ConsumeAuthorizationCode, PresentationOk, HashToken, Log, RefusedClient;
    var hash := HashToken(cfg.lib, form.code);
    var (sdb, a) := ConsumeAuthorizationCode(s.db, hash, now);
    var (tdb, b) := ConsumeAuthorizationCode(t.db, hash, now);
    ConsumeSame(now, s.db, t.db, hash);
    LogSame(now, s, t, CodeProfileRejected, "", "", form.clientId);
    if a.Ok? {
      LogSame(now, s.(db := sdb), t.(db := tdb), CodeProfileRejected, "", a.value.me, RefusedClient(a.value, form));
      LogSame(now, s.(db := sdb), t.(db := tdb), CodeProfileReturned, "", a.value.me, a.value.clientId);
    }
  }

  lemma TokenLookupSame(now: int, s: Db, t: Db, hash: string)
    requires Covers(now, s, t)
    ensures var a, b := GetAccessToken(s, hash, now), GetAccessToken(t, hash, now);
            a == b || (a.Err? && b.Err?)
  {
    hide RequestsCovered, ConsentsCovered, CodesCovered;
  }

  lemma DeadTokenChanged(now: int, s: map<string, AccessToken>, t: map<string, AccessToken>, k: string, row: AccessToken)
    requires TokensCovered(now, s, t) && k in t && k !in s && row.expiresAt == t[k].expiresAt
    ensures TokensCovered(now, s, t[k := row])
  {
  }

  lemma RevocationSame(now: int, s: Db, t: Db, hash: string)
    requires Covers(now, s, t)
    ensures Covers(now, RevokeAccessToken(s, hash, now), RevokeAccessToken(t, hash, now))
  {
    if hash in t.tokens {
      var row := t.tokens[hash].(revokedAt := Some(Whole(now)));
      if hash in s.tokens {
        TokenAdded(now, s.tokens, t.tokens, hash, row);
      } else {
        DeadTokenChanged(now, s.tokens, t.tokens, hash, row);
      }
    }
    assert hash in s.tokens ==> hash in t.tokens && s.tokens[hash] == t.tokens[hash];
    hide RequestsCovered, ConsentsCovered, CodesCovered, TokensCovered;
  }

  lemma TokensSame(cfg: Config, s: Shared, t: Shared, token: string, now: int)
    requires SharedCovers(now, s, t)
    ensures SameOutcome(now, OnIntrospect(cfg, s, token, now), OnIntrospect(cfg, t, token, now))
    ensures SameOutcome(now, OnRevoke(cfg, s, token, now), OnRevoke(cfg, t, token, now))
    ensures SameOutcome(now, OnRevoking(cfg, s, token, now), OnRevoking(cfg, t, token, now))
  {
    hide RequestsCovered, ConsentsCovered, CodesCovered, TokensCovered, GetAccessToken, RevokeAccessToken;
    TokenLookupSame(now, s.db, t.db, HashToken(cfg.lib, token));
    RevocationSame(now, s.db, t.db, HashToken(cfg.lib, token));
    hide HashToken;
  }

  lemma DropsSame(now: int, s: Db, t: Db, id: string)
    requires Covers(now, s, t)
    ensures Covers(now, DeleteAuthRequest(s, id), DeleteAuthRequest(t, id)) && Covers(now, DeleteConsentRequest(s, id), DeleteConsentRequest(t, id))
  {
  }

  // ---- One step, one run -------------------------------------------------------------------------

  /** The step is the excepted lookup. */
  ghost predicate LooksAtExpiry(db: Db, p: Proc, now: int, ch: Choice) {
    p.Searching? && ExpiringNow(db, ch.backend, p.callback.state, now)
  }

  lemma BeginSame(cfg: Config, s: Shared, t: Shared, r: Request, now: int, ch: Choice)
    requires SharedCovers(now, s, t) && Unused(cfg, s.db, ch) && Unused(cfg, t.db, ch)
    ensures SameOutcome(now, Begin(cfg, s, r, now, ch), Begin(cfg, t, r, now, ch))
  {
    hide Unused, OnSetup, OnAuthorize, OnConsentPage, OnConsentAnswer, OnExchange, OnCodeProfile, OnIntrospect, OnRevoke, OnEditProfile, Covers;
    match r
    case Setup => SetupSame(cfg, s, t, now, ch);
    case Authorize(q, fetched) => AuthorizeSame(cfg, s, t, q, fetched, now);
    case Callback(backend, q) =>
    case ConsentPage(id) => ConsentPagesSame(s, t, id, "", "", now);
    case ConsentAnswer(id, csrf, decision) => ConsentPagesSame(s, t, id, csrf, decision, now);
    case Exchange(form) => ExchangeSame(cfg, s, t, form, now);
    case CodeProfile(form) => CodeProfileSame(cfg, s, t, form, now);
    case Introspect(token) => TokensSame(cfg, s, t, token, now);
    case Revoke(token) => TokensSame(cfg, s, t, token, now);
    case EditProfile(form) => EditSame(cfg, s, t, form, now);
    case StartTest(target) =>
  }

  lemma AdvanceSame(cfg: Config, s: Shared, t: Shared, p: Proc, now: int, ch: Choice)
    requires SharedCovers(now, s, t) && Unused(cfg, s.db, ch) && Unused(cfg, t.db, ch) && UniqueStates(t.db.requests)
    requires !LooksAtExpiry(t.db, p, now, ch)
    ensures SameOutcome(now, Advance(cfg, s, p, now, ch), Advance(cfg, t, p, now, ch))
  {
    hide Unused, Begin, OnBound, OnSearching, OnFound, OnProvisioning, OnMatched, OnRedeemed, OnRevoking, OnEditing, Covers, UniqueStates,
      ExpiringNow;
    match p
    case Arrived(r) => BeginSame(cfg, s, t, r, now, ch);
    case Bound(q, si) => BoundSame(cfg, s, t, q, si, now, ch);
    case Searching(q, todo) => SearchingSame(s, t, q, todo, now, ch);
    case Found(q, row) => FoundSame(cfg, s, t, q, row, now, ch);
    case Provisioning(_, _, _, _, _) => ProvisioningSame(cfg, s, t, p, now);
    case Dropping(id) => DropsSame(now, s.db, t.db, id);
    case Matched(row, csrf, decision) => MatchedSame(cfg, s, t, row, csrf, decision, now, ch);
    case DroppingConsent(id) => DropsSame(now, s.db, t.db, id);
    case Redeemed(row, form) => RedeemedSame(cfg, s, t, row, form, now, ch);
    case Revoking(token) => TokensSame(cfg, s, t, token, now);
    case Editing(profile, credential, checkedAt) => EditingSame(cfg, s, t, profile, credential, checkedAt, now);
  }

  /** The state of the run with cleanups, and the state of the run without. */
  ghost predicate Simulated(s: Sys, t: Sys) {
    && s.now == t.now && s.procs == t.procs && s.issued == t.issued && s.digests == t.digests && s.hist == t.hist
    && SharedCovers(s.now, s.shared, t.shared)
  }

  /** The event is the excepted lookup, in the run without cleanups. */
  ghost predicate Excepted(t: Sys, e: Event) {
    e.Resume? && e.pid in t.procs && LooksAtExpiry(t.shared.db, t.procs[e.pid], t.now, e.choice)
  }

  lemma PurgeCovered(now: int, s: Db, t: Db, part: CleanupPart, at: int)
    requires Covers(now, s, t) && at <= now
    ensures Covers(now, Purge(s, part, at), t)
  {
    assert Whole(at) <= now;
  }

  lemma TimeCovered(now: int, later: int, s: Db, t: Db)
    requires Covers(now, s, t) && now <= later
    ensures Covers(later, s, t)
  {
  }

  lemma CleanSimulated(cfg: Config, s: Sys, t: Sys, e: Event)
    requires (hide *; Simulated(s, t)) && e.Clean? && Enabled(cfg, s, e)
    ensures Simulated(Step(cfg, s, e), t)
  {
    hide Covers, Purge;
    PurgeCovered(s.now, s.shared.db, t.shared.db, e.part, e.at);
  }

  lemma ResumeSimulated(cfg: Config, s: Sys, t: Sys, e: Event)
    requires (hide *; Simulated(s, t)) && Inv(cfg, s) && Inv(cfg, t) && e.Resume? && Enabled(cfg, s, e) && !Excepted(t, e)
    ensures Enabled(cfg, t, e) && Simulated(Step(cfg, s, e), Step(cfg, t, e)) && ReplyOf(cfg, s, e) == ReplyOf(cfg, t, e)
  {
    hide Inv, Advance, Covers, LooksAtExpiry, Unused, ChoiceOk, UniqueStates, SetProc, Record;
    FreshIsUnused(cfg, s, e.choice);
    FreshIsUnused(cfg, t, e.choice);
    AdvanceSame(cfg, s.shared, t.shared, s.procs[e.pid], s.now, e.choice);
  }

  /** Every other event does the same in both runs, and gets the same answer and audit trail. */
  lemma StepSimulated(cfg: Config, s: Sys, t: Sys, e: Event)
    requires (hide *; Simulated(s, t)) && Inv(cfg, s) && Inv(cfg, t) && !e.Clean? && Enabled(cfg, s, e) && !Excepted(t, e)
    ensures Enabled(cfg, t, e) && Simulated(Step(cfg, s, e), Step(cfg, t, e)) && ReplyOf(cfg, s, e) == ReplyOf(cfg, t, e)
  {
    hide Inv, Advance, Covers, Excepted;
    match e
    case Resume(_, _) => ResumeSimulated(cfg, s, t, e);
    case Tick(elapsed) => TimeCovered(s.now, s.now + elapsed, s.shared.db, t.shared.db);
    case Start(_, _) =>
  }

  /** The same events without the cleanups. */
  function Erase(events: seq<Event>): seq<Event> {
    if events == [] then []
    else
      var e := events[|events| - 1];
      Erase(events[..|events| - 1]) + if e.Clean? then [] else [e]
  }

  /** Where the first `i` events leave the run without cleanups. */
  function Position(events: seq<Event>, i: nat): nat
    requires i <= |events|
  {
    |Erase(events[..i])|
  }

  /** A stored request's state is looked up at the very instant it expires. */
  ghost predicate AtLastInstant(s: Sys, e: Event) {
    && e.Resume? && e.pid in s.procs && s.procs[e.pid].Searching?
    && exists id :: id in s.hist.requests && HasState(s.hist.requests[id].row, e.choice.backend, s.procs[e.pid].callback.state)
                    && s.hist.requests[id].row.expiresAt == s.now
  }

  lemma ExceptedIsLastInstant(cfg: Config, s: Sys, t: Sys, e: Event)
    requires Simulated(s, t) && Inv(cfg, t) && Excepted(t, e)
    ensures AtLastInstant(s, e)
  {
    hide Traced, Covers, ConsentsKept, CodesKept, TokensKept, ProfilesKept, CustomKept, VaultKept, SecretsDrawn, ProcsOk;
    var id := FindRequest(t.shared.db.requests, e.choice.backend, t.procs[e.pid].callback.state).value;
    assert id in s.hist.requests && t.shared.db.requests[id] == s.hist.requests[id].row;
  }

  /** The two runs agree on the first `n` events. */
  ghost predicate Agree(cfg: Config, states: seq<Sys>, events: seq<Event>, n: nat, without: seq<Sys>)
    requires (hide *; |states| == |events| + 1) && n <= |events|
  {
    && IsRun(cfg, without, Erase(events[..n]))
    && (forall i :: 0 <= i <= n ==> Position(events, i) < |without| && Simulated(states[i], without[Position(events, i)]))
    && (forall i :: 0 <= i < n && !events[i].Clean? ==> SameAnswer(cfg, states[i], without, Erase(events[..n]), Position(events, i), events[i]))
  }

  /** Event `k` of the run without cleanups is `e`, and is answered as `e` is in state `s`. */
  ghost predicate SameAnswer(cfg: Config, s: Sys, without: seq<Sys>, kept: seq<Event>, k: nat, e: Event) {
    hide *;
    && k < |kept| && k < |without| && kept[k] == e
    && Enabled(cfg, s, e) && Enabled(cfg, without[k], e)
    && ReplyOf(cfg, s, e) == ReplyOf(cfg, without[k], e)
  }

  lemma MoreEvents(cfg: Config, s: Sys, without: seq<Sys>, kept: seq<Event>, k: nat, e: Event, t: Sys, f: Event)
    requires SameAnswer(cfg, s, without, kept, k, e)
    ensures SameAnswer(cfg, s, without + [t], kept + [f], k, e)
  {
    hide Enabled, ReplyOf;
  }

  lemma EraseOne(events: seq<Event>, n: nat)
    requires n < |events|
    ensures Erase(events[..n + 1]) == Erase(events[..n]) + if events[n].Clean? then [] else [events[n]]
  {
    assert events[..n + 1][..n] == events[..n];
  }

  lemma {:induction false} AgreeSoFar(cfg: Config, states: seq<Sys>, events: seq<Event>, n: nat) returns (without: seq<Sys>)
    requires (hide Step, Advance; IsRun(cfg, states, events)) && n <= |events|
    requires forall i :: 0 <= i < n ==> !AtLastInstant(states[i], events[i])
    ensures Agree(cfg, states, events, n, without)
  {
    hide Enabled, Step, AtLastInstant, ReplyOf;
    if n == 0 {
      assert Initial(states[0]);
      without := [states[0]];
      EmptyRun(cfg, states[0]);
    } else {
      hide Initial;
      var m := n - 1;
      var before := AgreeSoFar(cfg, states, events, m);
      EraseOne(events, m);
      OneStep(cfg, states, events, m);
      without := AgreeOnceMore(cfg, states, events, m, before);
    }
  }

  lemma AgreeOnceMore(cfg: Config, states: seq<Sys>, events: seq<Event>, m: nat, before: seq<Sys>) returns (without: seq<Sys>)
    requires (hide Step, Advance; IsRun(cfg, states, events)) && m < |events| && Agree(cfg, states, events, m, before)
    requires Enabled(cfg, states[m], events[m]) && states[m + 1] == Step(cfg, states[m], events[m])
    requires !AtLastInstant(states[m], events[m])
    ensures Agree(cfg, states, events, m + 1, without)
  {
    hide Initial, Enabled, Step, AtLastInstant, ReplyOf, Simulated, Inv, Erase, SameAnswer, Excepted;
    var e, kept := events[m], Erase(events[..m]);
    EraseOne(events, m);
    var s, t := states[m], before[|kept|];
    if e.Clean? {
      CleanSimulated(cfg, s, t, e);
      without := before;
      assert Erase(events[..m + 1]) == kept;
    } else {
      RunKeepsInv(cfg, states, events, m);
      RunKeepsInv(cfg, before, kept, |kept|);
      if Excepted(t, e) {
        ExceptedIsLastInstant(cfg, s, t, e);
      }
      StepSimulated(cfg, s, t, e);
      LongerRun(cfg, before, kept, e);
      without := before + [Step(cfg, t, e)];
      assert Erase(events[..m + 1]) == kept + [e];
      assert IsRun(cfg, without, Erase(events[..m + 1]));
      forall i | 0 <= i <= m + 1
        ensures Position(events, i) < |without| && Simulated(states[i], without[Position(events, i)])
      {
        if i <= m {
          assert Position(events, i) < |before| && Simulated(states[i], before[Position(events, i)]);
        }
      }
      forall i | 0 <= i < m + 1 && !events[i].Clean?
        ensures SameAnswer(cfg, states[i], without, kept + [e], Position(events, i), events[i])
      {
        if i < m {
          MoreEvents(cfg, states[i], before, kept, Position(events, i), events[i], Step(cfg, t, e), e);
        } else {
          JustAnswered(cfg, s, t, before, kept, e);
        }
      }
    }
  }

  lemma JustAnswered(cfg: Config, s: Sys, t: Sys, before: seq<Sys>, kept: seq<Event>, e: Event)
    requires (hide *; |before| == |kept| + 1) && t == before[|kept|] && Enabled(cfg, s, e) && Enabled(cfg, t, e) && ReplyOf(cfg, s, e) == ReplyOf(cfg, t, e)
    ensures SameAnswer(cfg, s, before + [Step(cfg, t, e)], kept + [e], |kept|, e)
  {
    hide Enabled, ReplyOf, Step;
  }

  /**
   Take any run in which no stored request is looked up at the very instant it expires, with
   cleanups, or some of their four deletes, at any points. With all of them left out the other
   events are still a run, every one of them gets the same answer, and the audit trail, the
   history and the requests in flight are the same throughout.
   */
  lemma CleanupInvisible(cfg: Config, states: seq<Sys>, events: seq<Event>) returns (without: seq<Sys>)
    requires (hide Step, Advance; IsRun(cfg, states, events))
    requires forall i :: 0 <= i < |events| ==> !AtLastInstant(states[i], events[i])
    ensures IsRun(cfg, without, Erase(events))
    ensures forall i :: 0 <= i <= |events| ==> Position(events, i) < |without| && Simulated(states[i], without[Position(events, i)])
    ensures forall i :: 0 <= i < |events| && !events[i].Clean? ==>
              SameAnswer(cfg, states[i], without, Erase(events), Position(events, i), events[i])
  {
    hide Initial, Enabled, Step, AtLastInstant, Simulated, SameAnswer, Erase;
    without := AgreeSoFar(cfg, states, events, |events|);
    assert events[..|events|] == events;
  }
}
