/** Every step of every request keeps the invariant, whatever the other requests in flight are doing. */
module Preservation {
  import opened Prelude
  import opened Text
  import opened Library
  import opened Config
  import opened Handles
  import opened Discovery
  import opened Tables
  import opened Handlers
  import opened Runs
  import opened Invariant
  import opened HistorySteps

  /** What a step stores is keyed by the secrets it drew. */
  ghost predicate NoteSecrets(cfg: Config, ch: Choice, n: Note) {
    match n
    case RequestStored(row, _, _) => row.id == ch.a && row.backendState.state == ch.b
    case ConsentStored(row, _, _) => row.id == ch.a
    case CodeStored(row, _) => row.codeHash == HashToken(cfg.lib, ch.a)
    case TokenStored(row, _, _) => row.tokenHash == HashToken(cfg.lib, ch.a)
    case SetupLogin(credential, _) => credential == ch.a
    case _ => true
  }

  /** All that a step of request `pid` has to achieve. */
  ghost predicate Good(cfg: Config, s: Sys, pid: nat, ch: Choice, o: Outcome) {
    hide *;
    && NoteOk(cfg, s.hist, pid, s.now, o.note)
    && NoteSecrets(cfg, ch, o.note)
    && o.shared.vault.Keys <= s.shared.vault.Keys + {ch.a}
    && Kept(cfg, s.now, o.shared, Record(s.hist, pid, s.now, o.note))
    && (o.next.Some? ==> ProcOk(cfg, Record(s.hist, pid, s.now, o.note), pid, s.now, o.next.value))
  }

  ghost predicate Ready(cfg: Config, s: Sys, ch: Choice) {
    Inv(cfg, s) && Fresh(cfg, s, ch)
  }

  // ---- From one good step to the invariant ------------------------------------------------

  lemma SecretsStayDrawn(cfg: Config, s: Sys, pid: nat, ch: Choice, o: Outcome)
    requires SecretsDrawn(s.issued, s.digests, s.hist, s.shared.vault) && Fresh(cfg, s, ch)
    requires Traced(cfg, s.hist) && NoteOk(cfg, s.hist, pid, s.now, o.note) && NoteSecrets(cfg, ch, o.note)
    requires o.shared.vault.Keys <= s.shared.vault.Keys + {ch.a}
    ensures SecretsDrawn(s.issued + {ch.a, ch.b, ch.c}, s.digests + {HashToken(cfg.lib, ch.a)},
                         Record(s.hist, pid, s.now, o.note), o.shared.vault)
  {
    hide Traced, NoteOk, Record, StatesDiffer, HashToken, RequestsDrawn;
    if o.note.RequestStored? {
      NewRequestDrawn(cfg, s, pid, ch, o);
    } else {
      MoreSecrets(s.hist.requests, s.issued, s.issued + {ch.a, ch.b, ch.c});
      NothingElseDrawn(cfg, s, pid, ch, o);
    }
  }

  lemma NewRequestDrawn(cfg: Config, s: Sys, pid: nat, ch: Choice, o: Outcome)
    requires SecretsDrawn(s.issued, s.digests, s.hist, s.shared.vault) && Fresh(cfg, s, ch)
    requires o.note.RequestStored? && NoteSecrets(cfg, ch, o.note)
    requires o.shared.vault.Keys <= s.shared.vault.Keys + {ch.a}
    ensures SecretsDrawn(s.issued + {ch.a, ch.b, ch.c}, s.digests + {HashToken(cfg.lib, ch.a)},
                         Record(s.hist, pid, s.now, o.note), o.shared.vault)
  {
    hide StatesDiffer, HashToken, KeysIn;
    var secrets, digests := s.issued + {ch.a, ch.b, ch.c}, s.digests + {HashToken(cfg.lib, ch.a)};
    NewStateDiffers(s.hist.requests, s.issued, RequestOrigin(o.note.row, o.note.query, o.note.source, s.now));
    MoreKeys(s.hist.consents, s.issued, secrets);
    MoreKeys(s.hist.logins, s.issued, secrets);
    MoreKeys(s.hist.codes, s.digests, digests);
    MoreKeys(s.hist.tokens, s.digests, digests);
    VaultKeys(s.shared.vault, o.shared.vault, s.issued, secrets, ch.a);
  }

  lemma MoreSecrets(requests: map<string, RequestOrigin>, issued: set<string>, issued': set<string>)
    requires RequestsDrawn(issued, requests) && issued <= issued'
    ensures RequestsDrawn(issued', requests)
  {
  }

  /** No other record brings a new request. */
  lemma NothingElseDrawn(cfg: Config, s: Sys, pid: nat, ch: Choice, o: Outcome)
    requires SecretsDrawn(s.issued, s.digests, s.hist, s.shared.vault)
    requires RequestsDrawn(s.issued + {ch.a, ch.b, ch.c}, s.hist.requests)
    requires !o.note.RequestStored? && NoteSecrets(cfg, ch, o.note)
    requires o.shared.vault.Keys <= s.shared.vault.Keys + {ch.a}
    ensures SecretsDrawn(s.issued + {ch.a, ch.b, ch.c}, s.digests + {HashToken(cfg.lib, ch.a)},
                         Record(s.hist, pid, s.now, o.note), o.shared.vault)
  {
    hide StatesDiffer, HashToken, UseFate, RequestsDrawn, KeysIn, NoteSecrets;
    var h, secrets, digests := s.hist, s.issued + {ch.a, ch.b, ch.c}, s.digests + {HashToken(cfg.lib, ch.a)};
    MoreKeys(h.consents, s.issued, secrets);
    MoreKeys(h.logins, s.issued, secrets);
    MoreKeys(h.codes, s.digests, digests);
    MoreKeys(h.tokens, s.digests, digests);
    VaultKeys(s.shared.vault, o.shared.vault, s.issued, secrets, ch.a);
    StoredKeysDrawn(cfg, h, pid, s.now, ch, o.note, secrets, digests);
    hide Record;
  }

  lemma StoredKeysDrawn(cfg: Config, h: History, pid: nat, now: int, ch: Choice, n: Note, secrets: set<string>, digests: set<string>)
    requires KeysIn(h.consents, secrets) && KeysIn(h.logins, secrets) && KeysIn(h.codes, digests) && KeysIn(h.tokens, digests)
    requires ch.a in secrets && HashToken(cfg.lib, ch.a) in digests
    requires !n.RequestStored? && NoteSecrets(cfg, ch, n)
    ensures var g := Record(h, pid, now, n);
            && g.requests == h.requests && KeysIn(g.consents, secrets) && KeysIn(g.logins, secrets)
            && KeysIn(g.codes, digests) && KeysIn(g.tokens, digests)
  {
    hide HashToken, Record, KeysIn;
    var g := Record(h, pid, now, n);
    RecordedParts(h, pid, now, n);
    RecordedRest(h, pid, now, n);
    match n
    case ConsentStored(row, _, _) => AddKey(h.consents, row.id, g.consents[row.id], secrets);
    case SetupLogin(credential, _) => AddKey(h.logins, credential, g.logins[credential], secrets);
    case CodeStored(row, _) => AddKey(h.codes, row.codeHash, g.codes[row.codeHash], digests);
    case TokenStored(row, _, _) => AddKey(h.tokens, row.tokenHash, g.tokens[row.tokenHash], digests);
    case _ =>
  }

  lemma MoreKeys<K, V>(m: map<K, V>, s: set<K>, s': set<K>)
    requires KeysIn(m, s) && s <= s'
    ensures KeysIn(m, s')
  {
  }

  lemma AddKey<K, V>(m: map<K, V>, k: K, v: V, s: set<K>)
    requires KeysIn(m, s) && k in s
    ensures KeysIn(m[k := v], s)
  {
  }

  lemma VaultKeys<K, V>(m: map<K, V>, m': map<K, V>, s: set<K>, s': set<K>, k: K)
    requires KeysIn(m, s) && m'.Keys <= m.Keys + {k} && s <= s' && k in s'
    ensures KeysIn(m', s')
  {
  }

  lemma NewStateDiffers(requests: map<string, RequestOrigin>, issued: set<string>, o: RequestOrigin)
    requires StatesDiffer(requests) && RequestsDrawn(issued, requests)
    requires o.row.backendState.state !in issued
    ensures StatesDiffer(requests[o.row.id := o])
  {
  }

  lemma OthersStayOk(cfg: Config, s: Sys, pid: nat, ch: Choice, o: Outcome)
    requires ProcsOk(cfg, s.hist, s.now, s.procs) && Traced(cfg, s.hist) && Good(cfg, s, pid, ch, o)
    ensures ProcsOk(cfg, Record(s.hist, pid, s.now, o.note), s.now, SetProc(s.procs, pid, o.next))
  {
    hide ProcOk, Traced, NoteOk, Kept, Grows, Record, NoteSecrets;
    var h' := Record(s.hist, pid, s.now, o.note);
    RecordGrows(cfg, s.hist, pid, s.now, o.note);
    forall q | q in SetProc(s.procs, pid, o.next)
      ensures ProcOk(cfg, h', q, s.now, SetProc(s.procs, pid, o.next)[q])
    {
      if q != pid {
        ProcOkGrows(cfg, s.hist, h', pid, q, s.now, s.now, s.procs[q]);
      }
    }
  }

  lemma CommitKeepsInv(cfg: Config, s: Sys, pid: nat, ch: Choice, o: Outcome)
    requires Ready(cfg, s, ch) && Good(cfg, s, pid, ch, o)
    ensures Inv(cfg, Commit(cfg, s, pid, ch, o))
  {
    RecordKeepsTraced(cfg, s.hist, pid, s.now, o.note);
    SecretsStayDrawn(cfg, s, pid, ch, o);
    OthersStayOk(cfg, s, pid, ch, o);
    LoginsStayPast(cfg, s, pid, o.note);
    hide Traced, Kept, SecretsDrawn, ProcsOk, LoginsPast, NoteOk, NoteSecrets, ProcOk, Record, SetProc;
  }

  lemma LoginsStayPast(cfg: Config, s: Sys, pid: nat, n: Note)
    requires LoginsPast(s.hist.logins, s.now)
    ensures LoginsPast(Record(s.hist, pid, s.now, n).logins, s.now)
  {
  }

  /** Only a delete of something stored before is left to do. */
  ghost predicate Deleting(h: History, p: Proc) {
    (p.Dropping? && p.requestId in h.requests) || (p.DroppingConsent? && p.consentId in h.consents)
  }

  // ---- Steps that store nothing ------------------------------------------------------------

  /** The same tables and sealed values, but for audit events. */
  ghost predicate SameTables(s: Shared, t: Shared) {
    t == s.(db := s.db.(audit := t.db.audit))
  }

  lemma Quiet(cfg: Config, s: Sys, pid: nat, ch: Choice, o: Outcome)
    requires (hide *; Ready(cfg, s, ch)) && SameTables(s.shared, o.shared) && o.note == Nothing
    requires o.next.Some? ==> ProcOk(cfg, s.hist, pid, s.now, o.next.value)
    ensures Good(cfg, s, pid, ch, o)
  {
    hide Traced, RequestsKept, ConsentsKept, CodesKept, TokensKept, ProfilesKept, CustomKept, VaultKept, SecretsDrawn, ProcsOk, ProcOk;
  }

  // ---- /setup and /authorize --------------------------------------------------------------------

  lemma StoreRequest(cfg: Config, s: Sys, pid: nat, ch: Choice, given: AuthRequest, query: Option<AuthorizeQuery>, source: Source, o: Outcome)
    requires Ready(cfg, s, ch)
    requires given.id == ch.a && given.backendState.state == ch.b && given.id !in s.shared.db.requests
    requires var row := CreateAuthRequest(s.shared.db, given).0.requests[ch.a];
             RequestOk(cfg, s.hist.owners, ch.a, RequestOrigin(row, query, source, s.now))
             && o.note == RequestStored(row, query, source)
    requires SameTables(s.shared.(db := CreateAuthRequest(s.shared.db, given).0), o.shared) && o.next == None
    ensures Good(cfg, s, pid, ch, o)
  {
    hide Traced, ConsentsKept, CodesKept, TokensKept, ProfilesKept, CustomKept, VaultKept, ProcsOk, RequestOk;
  }

  lemma SetupStep(cfg: Config, s: Sys, pid: nat, ch: Choice)
    requires Ready(cfg, s, ch)
    ensures Good(cfg, s, pid, ch, OnSetup(cfg, s.shared, s.now, ch))
  {
    hide Inv, Good, Fresh;
    var o := OnSetup(cfg, s.shared, s.now, ch);
    if o.note == Nothing {
      Quiet(cfg, s, pid, ch, o);
    } else {
      var backend := if cfg.managedEnabled then cfg.managedBackend else cfg.dynamicBackend;
      StoreRequest(cfg, s, pid, ch,
        AuthRequest(ch.a, backend, BackendState(ch.b, ch.c, true, None), "", "", "", "", "", "", "", None, s.now + cfg.requestTtl, s.now),
        None, Static, o);
    }
  }

  lemma CanonicalTwice(u: Url)
    ensures Canonical(Canonical(u)) == Canonical(u)
  {
    LowerTwice(u.scheme);
    LowerTwice(u.hostname);
  }

  lemma LowerTwice(s: string)
    ensures Lower(Lower(s)) == Lower(s)
  {
  }

  /** Under the canonical-form law the requested URL is its own canonical form. */
  lemma AskedIsCanonical(cfg: Config, q: AuthorizeQuery)
    requires CanonicalLaw(cfg.lib) && RequestedMe(cfg, q).Some?
    ensures exists u :: cfg.lib.parse(RequestedMe(cfg, q).value) == Some(Canonical(u)) && cfg.lib.render(Canonical(u)) == RequestedMe(cfg, q).value
    ensures CanonicalUrl(cfg.lib, RequestedMe(cfg, q).value) == Some(RequestedMe(cfg, q).value)
  {
    var lib := cfg.lib;
    var given := ValidateHttpsUrl(lib, q.me, cfg.allowHttp).value;
    var u := lib.parse(lib.render(given)).value;
    var asked := lib.render(Canonical(u));
    assert RequestedMe(cfg, q) == Some(asked);
    assert PrintsBack(lib, lib.render(given));
    assert lib.parse(asked) == Some(Canonical(u));
    CanonicalTwice(u);
    CanonicalHasHost(u);
  }

  lemma CanonicalHasHost(u: Url)
    ensures Canonical(u).scheme == "" <==> u.scheme == ""
    ensures Canonical(u).NoHost() <==> u.NoHost()
  {
    assert |Lower(u.scheme)| == |u.scheme| && |Lower(u.hostname)| == |u.hostname|;
  }

  /** A page's binding is for the very URL asked for. */
  lemma DiscoveredMeIsAsked(cfg: Config, q: AuthorizeQuery, page: Option<string>)
    requires CanonicalLaw(cfg.lib) && RequestedMe(cfg, q).Some?
    ensures var r := DiscoverIdentity(cfg.lib, RequestedMe(cfg, q).value, cfg.allowHttp, cfg.metadataName, cfg.publicUrl,
                                      cfg.IssuerOf(cfg.dynamicBackend), page);
            r.Some? ==> r.value.me == RequestedMe(cfg, q).value
  {
    hide PageDelegates, IdentityMetadata, CanonicalLaw, RequestedMe;
    AskedIsCanonical(cfg, q);
    var asked := RequestedMe(cfg, q).value;
    var u :| cfg.lib.parse(asked) == Some(Canonical(u)) && cfg.lib.render(Canonical(u)) == asked;
    var given := cfg.lib.parse(asked).value;
    assert given == given.(fragment := "", path := if given.path == "" then "/" else given.path);
  }

  lemma ResolvedSignInOk(cfg: Config, s: Sys, q: AuthorizeQuery, page: Option<string>)
    requires ProfilesKept(s.shared.db.profiles, s.hist.owners) && RequestedMe(cfg, q).Some?
    requires var asked := RequestedMe(cfg, q).value; !ManagedProfileForMe(cfg, s.shared.db, asked).UnknownHandle?
    ensures var r := ResolveProfile(cfg, s.shared.db, RequestedMe(cfg, q).value, page);
            r.Some? ==> SignInOk(cfg, s.hist.owners, q, r.value)
    ensures var asked := RequestedMe(cfg, q).value;
            var r := ResolveProfile(cfg, s.shared.db, asked, page);
            r.Some? && r.value.source.Page? ==>
              DiscoverIdentity(cfg.lib, asked, cfg.allowHttp, cfg.metadataName, cfg.publicUrl, cfg.IssuerOf(cfg.dynamicBackend), page)
              == Some(Binding(r.value.me, r.value.owner.value.issuer, r.value.owner.value.subject))
  {
    hide RequestedMe, CanonicalLaw, HandleInUrl, DiscoverIdentity, ProfilesKept, ManagedProfileForMe, ProfileByMe;
    var asked := RequestedMe(cfg, q).value;
    if CanonicalLaw(cfg.lib) {
      DiscoveredMeIsAsked(cfg, q, page);
      ConfiguredMeIsAsked(cfg, q);
    }
    var managed := ManagedProfileForMe(cfg, s.shared.db, asked);
    if managed.OwnedBy? {
      OwnedProfile(cfg, s.shared.db, s.hist.owners, asked);
    } else {
      NotManagedHasNoHandle(cfg, s.shared.db, asked);
    }
  }

  lemma NotManagedHasNoHandle(cfg: Config, db: Db, me: string)
    requires ManagedProfileForMe(cfg, db, me).NotManaged?
    ensures !cfg.managedEnabled || HandleInUrl(cfg, me) == ""
  {
    hide HandleInUrl;
  }

  lemma ConfiguredMeIsAsked(cfg: Config, q: AuthorizeQuery)
    requires CanonicalLaw(cfg.lib) && RequestedMe(cfg, q).Some?
    ensures var r := ProfileByMe(cfg, RequestedMe(cfg, q).value); r.Some? ==> r.value.me == RequestedMe(cfg, q).value
  {
    hide RequestedMe, CanonicalLaw;
    AskedIsCanonical(cfg, q);
  }

  lemma OwnedProfile(cfg: Config, db: Db, owners: map<string, Owner>, me: string)
    requires ProfilesKept(db.profiles, owners) && ManagedProfileForMe(cfg, db, me).OwnedBy?
    ensures var row := ManagedProfileForMe(cfg, db, me).row;
            && cfg.managedEnabled && HandleInUrl(cfg, me) != ""
            && row.handle in owners && owners[row.handle] == row.Holder() && me == ManagedProfileUrl(cfg, row.handle)
  {
    hide HandleInUrl, GoodHandle, Reserved;
    var row := ManagedProfileForMe(cfg, db, me).row;
    assert Lower(HandleInUrl(cfg, me)) in db.profiles;
  }

  lemma CheckedQueryOk(cfg: Config, db: Db, q: AuthorizeQuery, fetched: Fetched)
    requires CheckAuthorize(cfg, db, q, fetched) == None
    ensures QueryOk(cfg, q) && RequestedMe(cfg, q).Some?
    ensures !ManagedProfileForMe(cfg, db, RequestedMe(cfg, q).value).UnknownHandle?
  {
    hide RequestedMe, ManagedProfileForMe, ScopeAllowed, ChallengeAccepted, ProfileByMe, RedirectOnClientOrigin, ValidateHttpsUrl;
  }

  lemma AuthorizeStep(cfg: Config, s: Sys, pid: nat, ch: Choice, q: AuthorizeQuery, fetched: Fetched)
    requires Ready(cfg, s, ch)
    ensures Good(cfg, s, pid, ch, OnAuthorize(cfg, s.shared, q, fetched, s.now))
  {
    hide Good, Fresh, Traced, RequestsKept, ConsentsKept, CodesKept, TokensKept, ProfilesKept, CustomKept, VaultKept, SecretsDrawn, ProcsOk,
      CheckAuthorize, ResolveProfile, RequestedMe, QueryOk, SignInOk;
    var o := OnAuthorize(cfg, s.shared, q, fetched, s.now);
    if o.next.Some? {
      CheckedQueryOk(cfg, s.shared.db, q, fetched);
      ResolvedSignInOk(cfg, s, q, fetched.page);
    }
    Quiet(cfg, s, pid, ch, o);
  }

  lemma BoundStep(cfg: Config, s: Sys, pid: nat, ch: Choice, q: AuthorizeQuery, si: SignIn)
    requires Ready(cfg, s, ch) && ProcOk(cfg, s.hist, pid, s.now, Bound(q, si))
    ensures Good(cfg, s, pid, ch, OnBound(cfg, s.shared, q, si, s.now, ch))
  {
    hide Inv, Good, Fresh, SignInOk, QueryOk;
    var o := OnBound(cfg, s.shared, q, si, s.now, ch);
    if o.note == Nothing {
      Quiet(cfg, s, pid, ch, o);
    } else {
      StoreRequest(cfg, s, pid, ch, RequestRow(cfg, q, si, s.now, ch), Some(q), si.source, o);
    }
  }

  // ---- The callback --------------------------------------------------------------------------------

  lemma CallbackStep(cfg: Config, s: Sys, pid: nat, ch: Choice, backend: string, q: CallbackQuery)
    requires Ready(cfg, s, ch)
    ensures Good(cfg, s, pid, ch, OnCallback(cfg, s.shared, backend, q))
  {
    hide Ready, Good;
    Quiet(cfg, s, pid, ch, OnCallback(cfg, s.shared, backend, q));
  }

  lemma FoundRow(cfg: Config, s: Sys, backend: string, state: string)
    requires (hide *; Inv(cfg, s)) && GetAuthRequest(s.shared.db, backend, state, s.now).Ok?
    ensures var row := GetAuthRequest(s.shared.db, backend, state, s.now).value;
            && row.id in s.hist.requests && s.hist.requests[row.id].row == row && row.backendState.state == state && row.backend == backend
            && row.id in s.shared.db.requests
  {
    hide ConsentsTraced, CodesTraced, TokensTraced, FatesOk, EditsTraced, ConsentsKept, CodesKept, TokensKept, ProfilesKept, CustomKept,
      VaultKept, SecretsDrawn, ProcsOk, SignInOk, QueryOk;
    var id := FindRequest(s.shared.db.requests, backend, state).value;
    assert RequestOk(cfg, s.hist.owners, id, s.hist.requests[id]);
  }

  lemma SearchingStep(cfg: Config, s: Sys, pid: nat, ch: Choice, q: CallbackQuery, todo: set<string>)
    requires Ready(cfg, s, ch)
    ensures Good(cfg, s, pid, ch, OnSearching(s.shared, q, todo, s.now, ch))
  {
    hide Inv, Good, Fresh, GetAuthRequest;
    var o := OnSearching(s.shared, q, todo, s.now, ch);
    if GetAuthRequest(s.shared.db, ch.backend, q.state, s.now).Ok? {
      FoundRow(cfg, s, ch.backend, q.state);
    }
    Quiet(cfg, s, pid, ch, o);
  }

  lemma StoreConsent(cfg: Config, s: Sys, pid: nat, ch: Choice, given: ConsentRequest, requestId: string, login: IdToken, o: Outcome)
    requires Ready(cfg, s, ch)
    requires given.id == ch.a && given.id !in s.shared.db.consents
    requires var row := CreateConsentRequest(s.shared.db, given).0.consents[ch.a];
             ConsentOk(cfg, s.hist.requests, ch.a, ConsentOrigin(row, requestId, login, s.now))
             && o.note == ConsentStored(row, requestId, login)
    requires SameTables(s.shared.(db := CreateConsentRequest(s.shared.db, given).0), o.shared)
    requires o.next.Some? && Deleting(s.hist, o.next.value)
    ensures Good(cfg, s, pid, ch, o)
  {
    hide Traced, RequestsKept, CodesKept, TokensKept, ProfilesKept, CustomKept, VaultKept, ProcsOk, ConsentOk;
  }

  lemma StoreCode(cfg: Config, s: Sys, pid: nat, ch: Choice, given: AuthorizationCode, cause: Cause, o: Outcome)
    requires Ready(cfg, s, ch)
    requires given.codeHash == HashToken(cfg.lib, ch.a) && given.codeHash !in s.shared.db.codes
    requires var row := CreateAuthorizationCode(s.shared.db, given).0.codes[given.codeHash];
             CodeOk(cfg, s.hist.requests, s.hist.consents, given.codeHash, CodeOrigin(row, cause, s.now))
             && o.note == CodeStored(row, cause)
    requires SameTables(s.shared.(db := CreateAuthorizationCode(s.shared.db, given).0), o.shared)
    requires o.next.Some? && Deleting(s.hist, o.next.value)
    ensures Good(cfg, s, pid, ch, o)
  {
    hide RequestsTraced, ConsentsTraced, CodesTraced, TokensTraced, EditsTraced, RequestsKept, ConsentsKept, CodesKept, TokensKept, ProfilesKept,
      CustomKept, VaultKept, ProcsOk, CodeOk, FatesOk, SecretsDrawn;
    UnusedDigest(cfg, s, ch);
    UnpresentedDigest(s.hist, given.codeHash);
    NewCodeKept(s.now, s.shared.db, s.hist, given, CodeOrigin(CreateAuthorizationCode(s.shared.db, given).0.codes[given.codeHash], cause, s.now));
  }

  lemma UnusedDigest(cfg: Config, s: Sys, ch: Choice)
    requires SecretsDrawn(s.issued, s.digests, s.hist, s.shared.vault) && Fresh(cfg, s, ch)
    ensures HashToken(cfg.lib, ch.a) !in s.hist.codes && HashToken(cfg.lib, ch.a) !in s.hist.tokens
  {
    hide HashToken, RequestsDrawn, StatesDiffer;
  }

  lemma UnpresentedDigest(h: History, hash: string)
    requires FatesOk(h.codes, h.fates, h.presented, h.tokens) && hash !in h.codes
    ensures hash !in h.presented
  {
  }

  lemma NewCodeKept(now: int, db: Db, h: History, given: AuthorizationCode, o: CodeOrigin)
    requires CodesKept(now, db.codes, h.codes, h.presented) && given.codeHash !in h.codes && given.codeHash !in h.presented
    requires CreateAuthorizationCode(db, given).1 && o.row == CreateAuthorizationCode(db, given).0.codes[given.codeHash]
    ensures CodesKept(now, CreateAuthorizationCode(db, given).0.codes, h.codes[given.codeHash := o], h.presented)
  {
    hide Advance, Step;
  }

  lemma StoreLogin(cfg: Config, s: Sys, pid: nat, ch: Choice, owner: Owner, o: Outcome)
    requires (hide *; Ready(cfg, s, ch))
    requires o.note == SetupLogin(ch.a, owner)
    requires o.shared == s.shared.(vault := s.shared.vault[ch.a := SetupPayload(cfg, owner, s.now)])
    requires o.next.Some?
    requires Deleting(s.hist, o.next.value)
             || (o.next.value.Provisioning? && o.next.value.stage == Looking && o.next.value.credential == ch.a
                 && o.next.value.requestId in s.hist.requests
                 && Owner(o.next.value.issuer, o.next.value.identity.subject) == owner)
    ensures Good(cfg, s, pid, ch, o)
  {
    hide Traced, RequestsKept, ConsentsKept, CodesKept, TokensKept, ProfilesKept, CustomKept, ProcsOk, SetupPayload, VaultKept, SecretsDrawn,
      LoginsPast;
    NewLoginKept(cfg, s, ch, owner);
  }

  lemma NewLoginKept(cfg: Config, s: Sys, ch: Choice, owner: Owner)
    requires VaultKept(cfg, s.shared.vault, s.hist.logins) && SecretsDrawn(s.issued, s.digests, s.hist, s.shared.vault) && Fresh(cfg, s, ch)
    ensures ch.a !in s.hist.logins
    ensures VaultKept(cfg, s.shared.vault[ch.a := SetupPayload(cfg, owner, s.now)], s.hist.logins[ch.a := LoginOrigin(owner, s.now)])
  {
    hide RequestsDrawn, StatesDiffer, SetupPayload, HashToken;
  }

  lemma FoundStep(cfg: Config, s: Sys, pid: nat, ch: Choice, q: CallbackQuery, row: AuthRequest)
    requires Ready(cfg, s, ch) && ProcOk(cfg, s.hist, pid, s.now, Found(q, row))
    ensures Good(cfg, s, pid, ch, OnFound(cfg, s.shared, q, row, s.now, ch))
  {
    hide Inv, Good, Fresh, LoginAllowed, SetupPayload;
    var o := OnFound(cfg, s.shared, q, row, s.now, ch);
    if o.note == Nothing {
      Quiet(cfg, s, pid, ch, o);
    } else {
      var login := CompleteAuth(q, row.backendState, ch.login).value;
      if row.backendState.setup {
        StoreLogin(cfg, s, pid, ch, Owner(cfg.IssuerOf(row.backend), login.identity.subject), o);
      } else if cfg.consentRequired {
        StoreConsent(cfg, s, pid, ch, ConsentRow(cfg, row, login.identity, s.now, ch), row.id, login, o);
      } else {
        StoreCode(cfg, s, pid, ch, CodeRowFromRequest(cfg, row, login.identity, s.now, ch), Login(row.id, login), o);
      }
    }
  }

  lemma DropRequestStep(cfg: Config, s: Sys, pid: nat, ch: Choice, id: string)
    requires Ready(cfg, s, ch)
    ensures Good(cfg, s, pid, ch, Outcome(s.shared.(db := DeleteAuthRequest(s.shared.db, id)), None, None, Nothing))
  {
    hide Traced, ConsentsKept, CodesKept, TokensKept, ProfilesKept, CustomKept, VaultKept, SecretsDrawn, ProcsOk;
  }

  lemma DropConsentStep(cfg: Config, s: Sys, pid: nat, ch: Choice, id: string)
    requires Ready(cfg, s, ch)
    ensures Good(cfg, s, pid, ch, Outcome(s.shared.(db := DeleteConsentRequest(s.shared.db, id)), None, None, Nothing))
  {
    hide Traced, RequestsKept, CodesKept, TokensKept, ProfilesKept, CustomKept, VaultKept, SecretsDrawn, ProcsOk;
  }

  // ---- Managed profiles ---------------------------------------------------------------------------------

  lemma GoodHandleIsLower(h: string)
    requires GoodHandle(h)
    ensures Lower(h) == h
  {
  }

  lemma GiveHandle(cfg: Config, s: Sys, pid: nat, ch: Choice, given: ManagedProfile, o: Outcome)
    requires (hide *; Ready(cfg, s, ch)) && GoodHandle(given.handle) && !Reserved(given.handle) && !given.customized
    requires CreateManagedProfile(s.shared.db, given).1 && o.note == HandleGiven(given)
    requires o.shared == s.shared.(db := CreateManagedProfile(s.shared.db, given).0)
    requires o.next.Some? && Deleting(s.hist, o.next.value)
    ensures Good(cfg, s, pid, ch, o)
  {
    hide Traced, RequestsKept, ConsentsKept, CodesKept, TokensKept, ProfilesKept, CustomKept, VaultKept, SecretsDrawn, ProcsOk, GoodHandle, Reserved;
    GoodHandleIsLower(given.handle);
    HandleJoins(s.shared.db, s.hist.owners, given);
    NewProfileIsPlain(s.shared.db, s.hist.edits, given);
  }

  lemma HandleJoins(db: Db, owners: map<string, Owner>, given: ManagedProfile)
    requires ProfilesKept(db.profiles, owners) && GoodHandle(given.handle) && !Reserved(given.handle)
    requires CreateManagedProfile(db, given).1
    ensures given.handle !in owners
    ensures ProfilesKept(CreateManagedProfile(db, given).0.profiles, owners[given.handle := given.Holder()])
  {
    hide GoodHandle, Reserved;
    GoodHandleIsLower(given.handle);
    forall h | h in owners
      ensures owners[h] != given.Holder()
    {
      assert db.profiles[h].Holder() == owners[h];
    }
  }

  lemma NewProfileIsPlain(db: Db, edits: seq<Edit>, given: ManagedProfile)
    requires CustomKept(db.profiles, edits) && !given.customized
    ensures CustomKept(CreateManagedProfile(db, given).0.profiles, edits)
  {
    hide EditedBy;
  }

  lemma UpdateKeepsCustom(db: Db, edits: seq<Edit>, edits': seq<Edit>, p: ManagedProfile)
    requires CustomKept(db.profiles, edits) && edits <= edits' && (p.customized && OwnerTaken(db, p.Holder()) ==> EditedBy(edits', p.Holder()))
    ensures CustomKept(UpdateManagedProfile(db, p).0.profiles, edits')
  {
    var rows := UpdateManagedProfile(db, p).0.profiles;
    forall h | h in rows && rows[h].customized
      ensures EditedBy(edits', rows[h].Holder())
    {
      if rows[h].Holder() != p.Holder() {
        var i :| 0 <= i < |edits| && edits[i].owner == rows[h].Holder();
        assert edits'[i].owner == rows[h].Holder();
      }
    }
  }

  lemma UpdateKeepsProfiles(db: Db, owners: map<string, Owner>, p: ManagedProfile)
    requires ProfilesKept(db.profiles, owners)
    ensures ProfilesKept(UpdateManagedProfile(db, p).0.profiles, owners)
  {
    hide GoodHandle, Reserved;
  }

  lemma UpdateQuiet(cfg: Config, s: Sys, pid: nat, ch: Choice, p: ManagedProfile, o: Outcome)
    requires (hide *; Ready(cfg, s, ch))
    requires SameTables(s.shared.(db := UpdateManagedProfile(s.shared.db, p).0), o.shared)
    requires o.note == Nothing && (p.customized ==> !OwnerTaken(s.shared.db, p.Holder()))
    requires o.next.Some? ==> Deleting(s.hist, o.next.value)
    ensures Good(cfg, s, pid, ch, o)
  {
    hide Traced, RequestsKept, ConsentsKept, CodesKept, TokensKept, ProfilesKept, CustomKept, VaultKept, SecretsDrawn, ProcsOk, CredentialGood,
      UpdateManagedProfile, EditedBy;
    UpdateKeepsProfiles(s.shared.db, s.hist.owners, p);
    UpdateKeepsCustom(s.shared.db, s.hist.edits, s.hist.edits, p);
    UpdateKeepsRest(s.shared.db, p);
  }

  lemma UpdateKeepsRest(db: Db, p: ManagedProfile)
    ensures UpdateManagedProfile(db, p).0 == db.(profiles := UpdateManagedProfile(db, p).0.profiles)
  {
  }

  lemma UpdateEdited(cfg: Config, s: Sys, pid: nat, ch: Choice, p: ManagedProfile, o: Outcome)
    requires (hide *; Ready(cfg, s, ch))
    requires SameTables(s.shared.(db := UpdateManagedProfile(s.shared.db, p).0), o.shared)
    requires o.note.ProfileEdited? && o.note.owner == p.Holder() && NoteOk(cfg, s.hist, pid, s.now, o.note)
    requires o.next == None
    ensures Good(cfg, s, pid, ch, o)
  {
    hide Traced, RequestsKept, ConsentsKept, CodesKept, TokensKept, ProfilesKept, CustomKept, VaultKept, SecretsDrawn, ProcsOk, CredentialGood,
      UpdateManagedProfile, EditedBy;
    UpdateKeepsProfiles(s.shared.db, s.hist.owners, p);
    var edits := Record(s.hist, pid, s.now, o.note).edits;
    LastEdit(s.hist.edits, edits, p.Holder());
    UpdateKeepsCustom(s.shared.db, s.hist.edits, edits, p);
    UpdateKeepsRest(s.shared.db, p);
  }

  lemma LastEdit(edits: seq<Edit>, edits': seq<Edit>, owner: Owner)
    requires edits <= edits' && |edits'| == |edits| + 1 && edits'[|edits|].owner == owner
    ensures EditedBy(edits', owner)
  {
  }

  lemma LookingOk(cfg: Config, s: Shared, owners: map<string, Owner>, p: Proc, now: int)
    requires (hide *; p.Provisioning?) && ProfilesKept(s.db.profiles, owners)
    ensures var o := OnLooking(cfg, s, p, now);
            && o.shared == s && o.note == Nothing && o.next.Some?
            && (o.next.value == Dropping(p.requestId)
                || (o.next.value.Provisioning? && o.next.value == p.(stage := o.next.value.stage)
                    && StageOk(Owner(p.issuer, p.identity.subject), o.next.value.stage)
                    && CandidatesOk(cfg, owners, p.identity, p.issuer, o.next.value.stage)))
  {
    hide TrimSpace, DesiredHandle, GoodHandle, Reserved, HasHandle, ProfilesKept, GetManagedProfileByIdentity;
    DesiredHandleGood(cfg.lib, p.identity, p.issuer);
    HeldHasHandle(s.db, owners, Owner(p.issuer, p.identity.subject));
  }

  lemma HeldHasHandle(db: Db, owners: map<string, Owner>, owner: Owner)
    requires ProfilesKept(db.profiles, owners)
    ensures GetManagedProfileByIdentity(db, owner).Some? <==> HasHandle(owners, owner)
    ensures var r := GetManagedProfileByIdentity(db, owner); r.Some? ==> r.value.Holder() == owner
  {
    hide GoodHandle, Reserved;
    if OwnerTaken(db, owner) {
      var k :| k in db.profiles && db.profiles[k].Holder() == owner;
      assert owners[k] == owner;
    }
  }

  /** An insertion fails because the handle or the owner has a row already. */
  lemma CreateFails(db: Db, owners: map<string, Owner>, row: ManagedProfile)
    requires ProfilesKept(db.profiles, owners) && GoodHandle(row.handle) && !CreateManagedProfile(db, row).1
    ensures row.handle in owners || HasHandle(owners, row.Holder())
  {
    hide GoodHandle, Reserved;
    GoodHandleIsLower(row.handle);
    if row.handle !in db.profiles {
      var k :| k in db.profiles && db.profiles[k].Holder() == row.Holder();
      assert owners[k] == row.Holder();
    }
  }

  lemma ProfilesAreKept(cfg: Config, s: Sys)
    requires Inv(cfg, s)
    ensures ProfilesKept(s.shared.db.profiles, s.hist.owners)
  {
    hide Traced, RequestsKept, ConsentsKept, CodesKept, TokensKept, ProfilesKept, CustomKept, VaultKept, SecretsDrawn, ProcsOk, LoginsPast;
  }

  lemma RecheckingOk(cfg: Config, s: Sys, p: Proc, row: ManagedProfile)
    requires (hide *; Inv(cfg, s)) && p.Provisioning? && p.stage == Rechecking(row)
    requires CandidatesOk(cfg, s.hist.owners, p.identity, p.issuer, p.stage)
    requires GetManagedProfileByIdentity(s.shared.db, Owner(p.issuer, p.identity.subject)).None?
    ensures CandidatesOk(cfg, s.hist.owners, p.identity, p.issuer,
                         Suffixing(row.(handle := SuffixedHandle(row.handle, cfg.lib.tag(p.issuer, p.identity.subject)))))
  {
    hide Traced, RequestsKept, ConsentsKept, CodesKept, TokensKept, ProfilesKept, CustomKept, VaultKept, SecretsDrawn, ProcsOk, LoginsPast,
      GetManagedProfileByIdentity, DesiredHandle, SuffixedHandle;
    HeldHasHandle(s.shared.db, s.hist.owners, Owner(p.issuer, p.identity.subject));
  }

  lemma CreatingOk(cfg: Config, s: Sys, p: Proc, row: ManagedProfile)
    requires (hide *; Inv(cfg, s)) && p.Provisioning? && p.stage == Creating(row) && StageOk(Owner(p.issuer, p.identity.subject), p.stage)
    requires CandidatesOk(cfg, s.hist.owners, p.identity, p.issuer, p.stage) && !CreateManagedProfile(s.shared.db, row).1
    ensures CandidatesOk(cfg, s.hist.owners, p.identity, p.issuer, Rechecking(row))
  {
    hide Traced, RequestsKept, ConsentsKept, CodesKept, TokensKept, ProfilesKept, CustomKept, VaultKept, SecretsDrawn, ProcsOk, LoginsPast,
      CreateManagedProfile, DesiredHandle, SuffixedHandle, GoodHandle, Reserved, HasHandle;
    CreateFails(s.shared.db, s.hist.owners, row);
  }

  lemma ProvisioningStep(cfg: Config, s: Sys, pid: nat, ch: Choice, p: Proc)
    requires (hide *; Ready(cfg, s, ch)) && p.Provisioning? && ProcOk(cfg, s.hist, pid, s.now, p)
    ensures Good(cfg, s, pid, ch, OnProvisioning(cfg, s.shared, p, s.now))
  {
    hide Inv, Good, Fresh, GoodHandle, Reserved, OnLooking, CreateManagedProfile, UpdateManagedProfile, SuffixedHandle, CandidatesOk,
      GetManagedProfileByIdentity;
    var o := OnProvisioning(cfg, s.shared, p, s.now);
    match p.stage
    case Looking =>
      ProfilesAreKept(cfg, s);
      LookingOk(cfg, s.shared, s.hist.owners, p, s.now);
      Quiet(cfg, s, pid, ch, o);
    case Renaming(row) => UpdateQuiet(cfg, s, pid, ch, row, o);
    case Creating(row) =>
      if CreateManagedProfile(s.shared.db, row).1 {
        GiveHandle(cfg, s, pid, ch, row, o);
      } else {
        CreatingOk(cfg, s, p, row);
        Quiet(cfg, s, pid, ch, o);
      }
    case Rechecking(row) =>
      SuffixedHandleGood(row.handle, cfg.lib.tag(p.issuer, p.identity.subject));
      if GetManagedProfileByIdentity(s.shared.db, Owner(p.issuer, p.identity.subject)).None? {
        RecheckingOk(cfg, s, p, row);
      }
      Quiet(cfg, s, pid, ch, o);
    case Suffixing(row) =>
      if CreateManagedProfile(s.shared.db, row).1 {
        GiveHandle(cfg, s, pid, ch, row, o);
      } else {
        Quiet(cfg, s, pid, ch, o);
      }
  }

  lemma OpenedCredential(cfg: Config, s: Sys, value: string)
    requires VaultKept(cfg, s.shared.vault, s.hist.logins) && LoginsPast(s.hist.logins, s.now)
    requires OpenSetup(s.shared.vault, value, s.now).Some?
    ensures CredentialGood(cfg, s.hist.logins, value, OpenSetup(s.shared.vault, value, s.now).value, s.now)
  {
    assert value in s.hist.logins;
    var at := s.hist.logins[value].at;
    Truncation(at, cfg.requestTtl);
  }

  lemma EditAdmitted(cfg: Config, s: Shared, form: ProfileForm, now: int)
    ensures (hide *; var o := OnEditProfile(cfg, s, form, now);
            && o.shared == s && o.note == Nothing
            && (o.next.Some? ==>
                  && OpenSetup(s.vault, form.credential, now).Some?
                  && o.next.value.Editing? && o.next.value.profile.Holder() == OpenSetup(s.vault, form.credential, now).value
                  && o.next.value.credential == form.credential && o.next.value.checkedAt == now))
  {
    hide EditOk, OpenSetup, WebsiteOf, TrimSpace;
  }

  lemma EditProfileStep(cfg: Config, s: Sys, pid: nat, ch: Choice, form: ProfileForm)
    requires Ready(cfg, s, ch)
    ensures Good(cfg, s, pid, ch, OnEditProfile(cfg, s.shared, form, s.now))
  {
    hide Traced, RequestsKept, ConsentsKept, CodesKept, TokensKept, ProfilesKept, CustomKept, VaultKept, SecretsDrawn, ProcsOk, LoginsPast, Good,
      Fresh, CredentialGood, OnEditProfile, OpenSetup;
    var o := OnEditProfile(cfg, s.shared, form, s.now);
    EditAdmitted(cfg, s.shared, form, s.now);
    if o.next.Some? {
      OpenedCredential(cfg, s, form.credential);
    }
    Quiet(cfg, s, pid, ch, o);
  }

  lemma EditingStep(cfg: Config, s: Sys, pid: nat, ch: Choice, profile: ManagedProfile, credential: string, checkedAt: int)
    requires Ready(cfg, s, ch) && ProcOk(cfg, s.hist, pid, s.now, Editing(profile, credential, checkedAt))
    ensures Good(cfg, s, pid, ch, OnEditing(cfg, s.shared, profile, credential, checkedAt, s.now))
  {
    hide Inv, Good, Fresh, CredentialGood;
    assert profile.(updatedAt := s.now).Holder() == profile.Holder();
    var o := OnEditing(cfg, s.shared, profile, credential, checkedAt, s.now);
    if o.note == Nothing {
      UpdateQuiet(cfg, s, pid, ch, profile.(updatedAt := s.now), o);
    } else {
      UpdateEdited(cfg, s, pid, ch, profile.(updatedAt := s.now), o);
    }
  }

  // ---- Consent, codes and tokens --------------------------------------------------------------------------

  lemma ConsentRowKnown(cfg: Config, s: Sys, id: string)
    requires (hide *; Inv(cfg, s)) && GetConsentRequest(s.shared.db, id, s.now).Ok?
    ensures var row := GetConsentRequest(s.shared.db, id, s.now).value;
            row.id == id && row.id in s.hist.consents && s.hist.consents[row.id].row == row
  {
    hide RequestsTraced, CodesTraced, TokensTraced, FatesOk, EditsTraced, RequestsKept, CodesKept, TokensKept, ProfilesKept, CustomKept, VaultKept,
      SecretsDrawn, ProcsOk, LoginOk;
    assert ConsentOk(cfg, s.hist.requests, id, s.hist.consents[id]);
  }

  lemma ConsentAnswerStep(cfg: Config, s: Sys, pid: nat, ch: Choice, id: string, csrf: string, decision: string)
    requires Ready(cfg, s, ch)
    ensures Good(cfg, s, pid, ch, OnConsentAnswer(s.shared, id, csrf, decision, s.now))
  {
    hide Inv, Good, Fresh, GetConsentRequest;
    if GetConsentRequest(s.shared.db, id, s.now).Ok? {
      ConsentRowKnown(cfg, s, id);
    }
    Quiet(cfg, s, pid, ch, OnConsentAnswer(s.shared, id, csrf, decision, s.now));
  }

  lemma MatchedStep(cfg: Config, s: Sys, pid: nat, ch: Choice, row: ConsentRequest, csrf: string, decision: string)
    requires Ready(cfg, s, ch) && ProcOk(cfg, s.hist, pid, s.now, Matched(row, csrf, decision))
    ensures Good(cfg, s, pid, ch, OnMatched(cfg, s.shared, row, csrf, decision, s.now, ch))
  {
    hide Inv, Good, Fresh;
    var o := OnMatched(cfg, s.shared, row, csrf, decision, s.now, ch);
    if o.note == Nothing {
      Quiet(cfg, s, pid, ch, o);
    } else {
      StoreCode(cfg, s, pid, ch, CodeRowFromConsent(cfg, row, s.now, ch), Approval(row.id, csrf), o);
    }
  }

  /** A successful consumption is the first, before expiry, of a code exactly as it was issued. */
  lemma ConsumedCode(cfg: Config, s: Sys, hash: string)
    requires (hide *; Inv(cfg, s)) && ConsumeAuthorizationCode(s.shared.db, hash, s.now).1.Ok?
    ensures var (db, r) := ConsumeAuthorizationCode(s.shared.db, hash, s.now);
            && hash in s.hist.codes && hash !in s.hist.presented && s.now < s.hist.codes[hash].row.expiresAt
            && r.value == s.hist.codes[hash].row && r.value.codeHash == hash && hash in s.hist.fates
            && CodesKept(s.now, db.codes, s.hist.codes, s.hist.presented[hash := s.now])
            && db == s.shared.db.(codes := db.codes)
  {
    hide RequestsTraced, ConsentsTraced, TokensTraced, EditsTraced, RequestsKept, ConsentsKept, TokensKept, ProfilesKept, CustomKept,
      VaultKept, SecretsDrawn, ProcsOk, CodesTraced, LoginsPast;
    assert hash in s.hist.codes;
    CodeIsWhole(cfg, s.hist, hash);
    ConsumedRow(s.now, s.shared.db, s.hist, hash);
  }

  lemma CodeIsWhole(cfg: Config, h: History, hash: string)
    requires CodesTraced(cfg, h.codes, h.consents, h.requests) && hash in h.codes
    ensures h.codes[hash].row.codeHash == hash && h.codes[hash].row.usedAt == None
  {
    hide LoginOk;
    assert CodeOk(cfg, h.requests, h.consents, hash, h.codes[hash]);
  }

  lemma ConsumedRow(now: int, db: Db, h: History, hash: string)
    requires CodesKept(now, db.codes, h.codes, h.presented) && ConsumeAuthorizationCode(db, hash, now).1.Ok?
    requires hash in h.codes && h.codes[hash].row.usedAt == None
    ensures hash !in h.presented && now < h.codes[hash].row.expiresAt
    ensures ConsumeAuthorizationCode(db, hash, now).1.value == h.codes[hash].row
    ensures CodesKept(now, ConsumeAuthorizationCode(db, hash, now).0.codes, h.codes, h.presented[hash := now])
  {
    var row := db.codes[hash];
    assert row.(usedAt := None) == row;
    hide CodesKept;
    MarkedUsed(now, db.codes, h.codes, h.presented, hash);
  }

  lemma MarkedUsed(now: int, rows: map<string, AuthorizationCode>, codes: map<string, CodeOrigin>, presented: map<string, int>, hash: string)
    requires CodesKept(now, rows, codes, presented) && hash in rows
    ensures CodesKept(now, rows[hash := rows[hash].(usedAt := Some(Whole(now)))], codes, presented[hash := now])
  {
    hide Whole;
  }

  lemma PresentStep(cfg: Config, s: Sys, pid: nat, ch: Choice, hash: string, use: Use, o: Outcome)
    requires (hide *; Ready(cfg, s, ch)) && ConsumeAuthorizationCode(s.shared.db, hash, s.now).1.Ok?
    requires o.note == CodePresented(hash, use)
    requires SameTables(s.shared.(db := ConsumeAuthorizationCode(s.shared.db, hash, s.now).0), o.shared)
    requires o.next.Some? ==> (use == ToExchange && o.next.value.Redeemed?
               && o.next.value.code == ConsumeAuthorizationCode(s.shared.db, hash, s.now).1.value
               && PresentationOk(cfg, o.next.value.code, o.next.value.form, true) && hash == HashToken(cfg.lib, o.next.value.form.code))
    ensures Good(cfg, s, pid, ch, o)
  {
    hide ConsumeAuthorizationCode, Inv, Fresh;
    ConsumedCode(cfg, s, hash);
    PresentGood(cfg, s, pid, ch, hash, use, ConsumeAuthorizationCode(s.shared.db, hash, s.now).0, o);
  }

  lemma PresentGood(cfg: Config, s: Sys, pid: nat, ch: Choice, hash: string, use: Use, db: Db, o: Outcome)
    requires (hide *; Ready(cfg, s, ch)) && db == s.shared.db.(codes := db.codes)
    requires hash in s.hist.codes && hash !in s.hist.presented && s.now < s.hist.codes[hash].row.expiresAt && hash in s.hist.fates
    requires CodesKept(s.now, db.codes, s.hist.codes, s.hist.presented[hash := s.now])
    requires o.note == CodePresented(hash, use) && SameTables(s.shared.(db := db), o.shared)
    requires o.next.Some? ==> (use == ToExchange && o.next.value.Redeemed? && o.next.value.code == s.hist.codes[hash].row
               && o.next.value.code.codeHash == hash && PresentationOk(cfg, o.next.value.code, o.next.value.form, true) && hash == HashToken(cfg.lib, o.next.value.form.code))
    ensures Good(cfg, s, pid, ch, o)
  {
    hide Traced, RequestsKept, ConsentsKept, CodesKept, TokensKept, ProfilesKept, CustomKept, VaultKept, SecretsDrawn, ProcsOk, PresentationOk;
  }

  lemma ExchangeStep(cfg: Config, s: Sys, pid: nat, ch: Choice, form: CodeForm)
    requires Ready(cfg, s, ch)
    ensures Good(cfg, s, pid, ch, OnExchange(cfg, s.shared, form, s.now))
  {
    hide Inv, Good, Fresh, ConsumeAuthorizationCode;
    var o := OnExchange(cfg, s.shared, form, s.now);
    match o.note
    case CodePresented(hash, use) => PresentStep(cfg, s, pid, ch, hash, use, o);
    case _ => Quiet(cfg, s, pid, ch, o);
  }

  lemma CodeProfileStep(cfg: Config, s: Sys, pid: nat, ch: Choice, form: CodeForm)
    requires Ready(cfg, s, ch)
    ensures Good(cfg, s, pid, ch, OnCodeProfile(cfg, s.shared, form, s.now))
  {
    hide Inv, Good, Fresh, ConsumeAuthorizationCode;
    var o := OnCodeProfile(cfg, s.shared, form, s.now);
    match o.note
    case CodePresented(hash, use) => PresentStep(cfg, s, pid, ch, hash, use, o);
    case _ => Quiet(cfg, s, pid, ch, o);
  }

  lemma StoreToken(cfg: Config, s: Sys, pid: nat, ch: Choice, row: AuthorizationCode, form: CodeForm, o: Outcome)
    requires Ready(cfg, s, ch) && ProcOk(cfg, s.hist, pid, s.now, Redeemed(row, form))
    requires var given := TokenRow(cfg, row, s.now, ch);
             && CreateAccessToken(s.shared.db, given).1
             && o.note == TokenStored(CreateAccessToken(s.shared.db, given).0.tokens[given.tokenHash], row.codeHash, form)
             && SameTables(s.shared.(db := CreateAccessToken(s.shared.db, given).0), o.shared)
    requires o.next == None
    ensures Good(cfg, s, pid, ch, o)
  {
    hide Traced, RequestsKept, ConsentsKept, CodesKept, TokensKept, ProfilesKept, CustomKept, VaultKept, ProcsOk, PresentationOk, SecretsDrawn;
    var given := TokenRow(cfg, row, s.now, ch);
    UnusedDigest(cfg, s, ch);
    NewTokenKept(s.now, s.shared.db, s.hist, given,
      TokenOrigin(CreateAccessToken(s.shared.db, given).0.tokens[given.tokenHash], row.codeHash, form, s.now));
  }

  lemma NewTokenKept(now: int, db: Db, h: History, given: AccessToken, o: TokenOrigin)
    requires TokensKept(now, db.tokens, h.tokens, h.revoked) && given.tokenHash !in h.tokens
    requires CreateAccessToken(db, given).1 && o.row == CreateAccessToken(db, given).0.tokens[given.tokenHash]
    ensures TokensKept(now, CreateAccessToken(db, given).0.tokens, h.tokens[given.tokenHash := o], h.revoked)
  {
    hide Advance, Step;
  }


  lemma RedeemedStep(cfg: Config, s: Sys, pid: nat, ch: Choice, row: AuthorizationCode, form: CodeForm)
    requires Ready(cfg, s, ch) && ProcOk(cfg, s.hist, pid, s.now, Redeemed(row, form))
    ensures Good(cfg, s, pid, ch, OnRedeemed(cfg, s.shared, row, form, s.now, ch))
  {
    var o := OnRedeemed(cfg, s.shared, row, form, s.now, ch);
    if o.note.TokenStored? {
      hide Inv, Good, Fresh, PresentationOk;
      StoreToken(cfg, s, pid, ch, row, form, o);
    } else {
      hide Traced, RequestsKept, ConsentsKept, CodesKept, TokensKept, ProfilesKept, CustomKept, VaultKept, SecretsDrawn, ProcsOk, PresentationOk;
    }
  }

  lemma RevokingStep(cfg: Config, s: Sys, pid: nat, ch: Choice, token: string)
    requires Ready(cfg, s, ch)
    ensures Good(cfg, s, pid, ch, OnRevoking(cfg, s.shared, token, s.now))
  {
    hide Traced, RequestsKept, ConsentsKept, CodesKept, ProfilesKept, CustomKept, VaultKept, SecretsDrawn, ProcsOk;
  }

  lemma StartTestStep(cfg: Config, s: Sys, pid: nat, ch: Choice, target: Target)
    requires Ready(cfg, s, ch)
    ensures Good(cfg, s, pid, ch, OnStartTest(cfg, s.shared, target, s.now, ch))
  {
    hide Traced, RequestsKept, ConsentsKept, CodesKept, TokensKept, ProfilesKept, CustomKept, ProcsOk, SetupPayload;
  }

  // ---- Every step -----------------------------------------------------------------------------------------

  lemma BeginGood(cfg: Config, s: Sys, pid: nat, ch: Choice, r: Request)
    requires Ready(cfg, s, ch)
    ensures Good(cfg, s, pid, ch, Begin(cfg, s.shared, r, s.now, ch))
  {
    hide Ready, Good, OnSetup, OnAuthorize, OnCallback, OnConsentAnswer, OnExchange, OnCodeProfile, OnEditProfile, OnStartTest;
    match r
    case Setup => SetupStep(cfg, s, pid, ch);
    case Authorize(q, fetched) => AuthorizeStep(cfg, s, pid, ch, q, fetched);
    case Callback(backend, q) => CallbackStep(cfg, s, pid, ch, backend, q);
    case ConsentPage(id) => Quiet(cfg, s, pid, ch, OnConsentPage(s.shared, id, s.now));
    case ConsentAnswer(id, csrf, decision) => ConsentAnswerStep(cfg, s, pid, ch, id, csrf, decision);
    case Exchange(form) => ExchangeStep(cfg, s, pid, ch, form);
    case CodeProfile(form) => CodeProfileStep(cfg, s, pid, ch, form);
    case Introspect(token) => Quiet(cfg, s, pid, ch, OnIntrospect(cfg, s.shared, token, s.now));
    case Revoke(token) => Quiet(cfg, s, pid, ch, OnRevoke(cfg, s.shared, token, s.now));
    case EditProfile(form) => EditProfileStep(cfg, s, pid, ch, form);
    case StartTest(target) => StartTestStep(cfg, s, pid, ch, target);
  }

  lemma InFlightOk(cfg: Config, s: Sys, pid: nat)
    requires (hide *; Inv(cfg, s)) && pid in s.procs
    ensures ProcOk(cfg, s.hist, pid, s.now, s.procs[pid])
  {
    hide Traced, Kept, SecretsDrawn, LoginsPast, ProcOk;
  }

  lemma AdvanceGood(cfg: Config, s: Sys, pid: nat, ch: Choice)
    requires (hide *; Ready(cfg, s, ch)) && pid in s.procs
    ensures Good(cfg, s, pid, ch, OutcomeOf(cfg, s, pid, ch))
  {
    hide Inv, Fresh, Good, Begin, ProcOk, OnBound, OnSearching, OnFound, OnProvisioning, OnMatched, OnRedeemed, OnRevoking, OnEditing;
    InFlightOk(cfg, s, pid);
    match s.procs[pid]
    case Arrived(r) => BeginGood(cfg, s, pid, ch, r);
    case Bound(q, si) => BoundStep(cfg, s, pid, ch, q, si);
    case Searching(q, todo) => SearchingStep(cfg, s, pid, ch, q, todo);
    case Found(q, row) => FoundStep(cfg, s, pid, ch, q, row);
    case Provisioning(_, _, _, _, _) => ProvisioningStep(cfg, s, pid, ch, s.procs[pid]);
    case Dropping(id) => DropRequestStep(cfg, s, pid, ch, id);
    case Matched(row, csrf, decision) => MatchedStep(cfg, s, pid, ch, row, csrf, decision);
    case DroppingConsent(id) => DropConsentStep(cfg, s, pid, ch, id);
    case Redeemed(row, form) => RedeemedStep(cfg, s, pid, ch, row, form);
    case Revoking(token) => RevokingStep(cfg, s, pid, ch, token);
    case Editing(profile, credential, checkedAt) => EditingStep(cfg, s, pid, ch, profile, credential, checkedAt);
  }

  lemma TickKeepsInv(cfg: Config, s: Sys, elapsed: int)
    requires Inv(cfg, s) && elapsed >= 0
    ensures Inv(cfg, s.(now := s.now + elapsed))
  {
    hide Traced, RequestsKept, ConsentsKept, ProfilesKept, CustomKept, VaultKept, SecretsDrawn, ProcOk;
    forall pid | pid in s.procs
      ensures ProcOk(cfg, s.hist, pid, s.now + elapsed, s.procs[pid])
    {
      TickKeepsProc(cfg, s.hist, pid, s.now, s.now + elapsed, s.procs[pid]);
    }
  }

  lemma TickKeepsProc(cfg: Config, h: History, pid: nat, now: int, later: int, p: Proc)
    requires ProcOk(cfg, h, pid, now, p) && now <= later
    ensures ProcOk(cfg, h, pid, later, p)
  {
    hide SignInOk, QueryOk, PresentationOk, CredentialGood;
  }

  lemma CleanKeepsInv(cfg: Config, s: Sys, part: CleanupPart, at: int)
    requires Inv(cfg, s) && at <= s.now
    ensures Inv(cfg, s.(shared := s.shared.(db := Purge(s.shared.db, part, at))))
  {
    hide Traced, ProfilesKept, CustomKept, VaultKept, SecretsDrawn, ProcsOk;
    assert Whole(at) <= s.now;
  }

  lemma StartKeepsInv(cfg: Config, s: Sys, pid: nat, request: Request)
    requires Inv(cfg, s)
    ensures Inv(cfg, s.(procs := s.procs[pid := Arrived(request)]))
  {
    hide Traced, Kept, SecretsDrawn, LoginsPast;
  }

  lemma ResumeKeepsInv(cfg: Config, s: Sys, pid: nat, ch: Choice)
    requires (hide *; Ready(cfg, s, ch)) && pid in s.procs
    ensures Inv(cfg, Commit(cfg, s, pid, ch, OutcomeOf(cfg, s, pid, ch)))
  {
    hide Inv, Fresh, Good, OutcomeOf, Commit;
    AdvanceGood(cfg, s, pid, ch);
    CommitKeepsInv(cfg, s, pid, ch, OutcomeOf(cfg, s, pid, ch));
  }

  lemma StepKeepsInv(cfg: Config, s: Sys, e: Event)
    requires (hide *; Inv(cfg, s)) && Enabled(cfg, s, e)
    ensures Inv(cfg, Step(cfg, s, e))
  {
    hide Inv, Fresh, OutcomeOf, Commit, Purge;
    match e
    case Tick(elapsed) => TickKeepsInv(cfg, s, elapsed);
    case Clean(part, at) => CleanKeepsInv(cfg, s, part, at);
    case Start(pid, request) => StartKeepsInv(cfg, s, pid, request);
    case Resume(pid, ch) => ResumeKeepsInv(cfg, s, pid, ch);
  }

  lemma InitialInv(cfg: Config, s: Sys)
    requires Initial(s)
    ensures Inv(cfg, s)
  {
  }

  /** The invariant holds in every state of every run. */
  lemma {:induction false} RunKeepsInv(cfg: Config, states: seq<Sys>, events: seq<Event>, i: nat)
    requires (hide *; IsRun(cfg, states, events)) && i < |states|
    ensures Inv(cfg, states[i])
  {
    hide Inv, Step, Enabled, Advance;
    if i == 0 {
      InitialInv(cfg, states[0]);
    } else {
      RunKeepsInv(cfg, states, events, i - 1);
      assert Enabled(cfg, states[i - 1], events[i - 1]) && states[i] == Step(cfg, states[i - 1], events[i - 1]);
      StepKeepsInv(cfg, states[i - 1], events[i - 1]);
    }
  }
}
