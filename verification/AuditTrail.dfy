/** The audit trail tells of every success, once, and for the right client and profile. */
module AuditTrail {
  import opened Prelude
  import opened Library
  import opened Config
  import opened Handles
  import opened Tables
  import opened Handlers
  import opened Runs
  import opened Invariant
  import opened HistorySteps
  import opened Preservation
  import opened Traces
  import opened OneUse

  // ---- One step ------------------------------------------------------------------------

  /** Whether an event reports something granted, stored or changed. */
  predicate Success(kind: AuditKind) {
    || kind.AuthRequestCreated? || kind.ConsentRequired? || kind.AuthorizationCodeIssued? || kind.AccessTokenIssued?
    || kind.CodeProfileReturned? || kind.ManagedProfileUpdated?
  }

  /** The event that goes with a record, if one does. */
  function Reported(n: Note): Option<AuditKind> {
    match n
    case RequestStored(_, query, _) => if query.Some? then Some(AuthRequestCreated) else None
    case ConsentStored(_, _, _) => Some(ConsentRequired)
    case CodeStored(_, _) => Some(AuthorizationCodeIssued)
    case TokenStored(_, _, _) => Some(AccessTokenIssued)
    case CodePresented(_, use) => if use == ToAnswer then Some(CodeProfileReturned) else None
    case ProfileEdited(_, _, _) => Some(ManagedProfileUpdated)
    case _ => None
  }

  /** The event names whom the record concerns. */
  predicate Names(e: AuditEvent, n: Note) {
    match n
    case RequestStored(row, _, _) => e.me == row.me && e.clientId == row.clientId
    case ConsentStored(row, _, _) => e.me == row.me && e.clientId == row.clientId && e.subject == row.subject
    case CodeStored(row, _) => e.me == row.me && e.clientId == row.clientId
    case TokenStored(row, _, _) => e.me == row.me && e.clientId == row.clientId
    case ProfileEdited(owner, _, _) => e.subject == owner.subject
    case _ => true
  }

  /** At most one event is added, and one of success exactly with the record it reports. */
  predicate Reports(before: seq<AuditEvent>, after: seq<AuditEvent>, n: Note) {
    if Reported(n).None? then
      after == before || (|after| == |before| + 1 && after[..|before|] == before && !Success(after[|before|].kind))
    else
      |after| == |before| + 1 && after[..|before|] == before && after[|before|].kind == Reported(n).value && Names(after[|before|], n)
  }

  /** A step that logs one event after its store call, which left the trail alone. */
  lemma Logs(s: Shared, t: Shared, kind: AuditKind, subject: string, me: string, clientId: string, now: int, n: Note)
    requires t.db.audit == s.db.audit
    requires if Reported(n).None? then !Success(kind) else kind == Reported(n).value && Names(AuditEvent(kind, subject, me, clientId, Whole(now)), n)
    ensures Reports(s.db.audit, Log(t, kind, subject, me, clientId, now).db.audit, n)
  {
    var after := Log(t, kind, subject, me, clientId, now).db.audit;
    assert after == s.db.audit + [AuditEvent(kind, subject, me, clientId, Whole(now))];
  }

  lemma Silent(s: Shared, t: Shared, n: Note)
    requires t.db.audit == s.db.audit && Reported(n).None?
    ensures Reports(s.db.audit, t.db.audit, n)
  {
  }

  lemma BeginReports(cfg: Config, s: Shared, r: Request, now: int, ch: Choice)
    ensures var o := Begin(cfg, s, r, now, ch); Reports(s.db.audit, o.shared.db.audit, o.note)
  {
    hide CheckAuthorize, ResolveProfile, RequestedMe, PresentationOk, EditOk, OpenSetup, GetConsentRequest, TesterPayload, HashToken, OnExchange,
      OnCodeProfile;
    match r
    case Exchange(form) => ExchangeReports(cfg, s, form, now);
    case CodeProfile(form) => CodeProfileReports(cfg, s, form, now);
    case Authorize(q, fetched) => AuthorizeReports(cfg, s, q, fetched, now);
    case _ =>
  }

  lemma AuthorizeReports(cfg: Config, s: Shared, q: AuthorizeQuery, fetched: Fetched, now: int)
    ensures var o := OnAuthorize(cfg, s, q, fetched, now); Reports(s.db.audit, o.shared.db.audit, o.note)
  {
    RefusalKind(cfg, s.db, q, fetched);
    hide CheckAuthorize, ResolveProfile, RequestedMe;
  }

  lemma RefusalKind(cfg: Config, db: Db, q: AuthorizeQuery, fetched: Fetched)
    ensures var r := CheckAuthorize(cfg, db, q, fetched); r.Some? && r.value.audit.Some? ==> r.value.audit.value == AuthRequestRejected
  {
    hide RequestedMe, ManagedProfileForMe, ScopeAllowed, ChallengeAccepted, ProfileByMe, RedirectAccepted, ValidateHttpsUrl;
  }

  lemma ConsumeKeepsAudit(db: Db, hash: string, now: int)
    ensures ConsumeAuthorizationCode(db, hash, now).0.audit == db.audit
  {
  }

  lemma ExchangeReports(cfg: Config, s: Shared, form: CodeForm, now: int)
    ensures var o := OnExchange(cfg, s, form, now); Reports(s.db.audit, o.shared.db.audit, o.note)
  {
    hide ConsumeAuthorizationCode, PresentationOk, HashToken, RefusedClient, Log, Reports;
    var hash := HashToken(cfg.lib, form.code);
    var (db, r) := ConsumeAuthorizationCode(s.db, hash, now);
    ConsumeKeepsAudit(s.db, hash, now);
    Logs(s, s, TokenExchangeRejected, "", "", form.clientId, now, Nothing);
    if r.Ok? {
      Logs(s, s.(db := db), TokenExchangeRejected, "", r.value.me, RefusedClient(r.value, form), now, CodePresented(hash, ToWaste));
      Silent(s, s.(db := db), CodePresented(hash, ToExchange));
    }
  }

  lemma CodeProfileReports(cfg: Config, s: Shared, form: CodeForm, now: int)
    ensures var o := OnCodeProfile(cfg, s, form, now); Reports(s.db.audit, o.shared.db.audit, o.note)
  {
    hide ConsumeAuthorizationCode, PresentationOk, HashToken, RefusedClient, Log, Reports;
    var hash := HashToken(cfg.lib, form.code);
    var (db, r) := ConsumeAuthorizationCode(s.db, hash, now);
    ConsumeKeepsAudit(s.db, hash, now);
    Logs(s, s, CodeProfileRejected, "", "", form.clientId, now, Nothing);
    if r.Ok? {
      Logs(s, s.(db := db), CodeProfileRejected, "", r.value.me, RefusedClient(r.value, form), now, CodePresented(hash, ToWaste));
      Logs(s, s.(db := db), CodeProfileReturned, "", r.value.me, r.value.clientId, now, CodePresented(hash, ToAnswer));
    }
  }

  lemma FoundReports(cfg: Config, s: Shared, q: CallbackQuery, row: AuthRequest, now: int, ch: Choice)
    ensures var o := OnFound(cfg, s, q, row, now, ch); Reports(s.db.audit, o.shared.db.audit, o.note)
  {
    hide CompleteAuth, LoginAllowed, SetupPayload, HashToken, Log, Reports, OnSetupLogin;
    Silent(s, s, Nothing);
    Logs(s, s, BackendLoginRejected, "", row.me, row.clientId, now, Nothing);
    var r := CompleteAuth(q, row.backendState, ch.login);
    if r.Some? {
      var identity := r.value.identity;
      Logs(s, s, IdentityClaimRejected, identity.subject, row.me, row.clientId, now, Nothing);
      if row.backendState.setup {
        SetupReports(cfg, s, row, identity, now, ch);
      } else if cfg.consentRequired {
        ConsentReports(cfg, s, row, r.value, now, ch);
      } else {
        CodeReports(s, CodeRowFromRequest(cfg, row, identity, now, ch), Login(row.id, r.value), identity.subject, now);
      }
    }
  }

  lemma SetupReports(cfg: Config, s: Shared, row: AuthRequest, identity: Identity, now: int, ch: Choice)
    ensures var o := OnSetupLogin(cfg, s, row, identity, now, ch); Reports(s.db.audit, o.shared.db.audit, o.note)
  {
    hide SetupPayload;
  }

  lemma ConsentReports(cfg: Config, s: Shared, row: AuthRequest, login: IdToken, now: int, ch: Choice)
    ensures var (db, ok) := CreateConsentRequest(s.db, ConsentRow(cfg, row, login.identity, now, ch));
            ok ==> Reports(s.db.audit, Log(s.(db := db), ConsentRequired, login.identity.subject, row.me, row.clientId, now).db.audit,
                           ConsentStored(db.consents[ch.a], row.id, login))
  {
    hide Log, Reports, SignedInProfile;
    var (db, ok) := CreateConsentRequest(s.db, ConsentRow(cfg, row, login.identity, now, ch));
    if ok {
      Logs(s, s.(db := db), ConsentRequired, login.identity.subject, row.me, row.clientId, now, ConsentStored(db.consents[ch.a], row.id, login));
    }
  }

  lemma CodeReports(s: Shared, code: AuthorizationCode, cause: Cause, subject: string, now: int)
    ensures var (db, ok) := CreateAuthorizationCode(s.db, code);
            ok ==> Reports(s.db.audit, Log(s.(db := db), AuthorizationCodeIssued, subject, code.me, code.clientId, now).db.audit,
                           CodeStored(db.codes[code.codeHash], cause))
  {
    hide Log, Reports;
    var (db, ok) := CreateAuthorizationCode(s.db, code);
    if ok {
      Logs(s, s.(db := db), AuthorizationCodeIssued, subject, code.me, code.clientId, now, CodeStored(db.codes[code.codeHash], cause));
    }
  }

  lemma MatchedReports(cfg: Config, s: Shared, row: ConsentRequest, csrf: string, decision: string, now: int, ch: Choice)
    ensures var o := OnMatched(cfg, s, row, csrf, decision, now, ch); Reports(s.db.audit, o.shared.db.audit, o.note)
  {
    hide HashToken, Log, Reports;
    Silent(s, s, Nothing);
    Logs(s, s, ConsentDenied, row.subject, row.me, row.clientId, now, Nothing);
    CodeReports(s, CodeRowFromConsent(cfg, row, now, ch), Approval(row.id, csrf), row.subject, now);
  }

  lemma RedeemedReports(cfg: Config, s: Shared, row: AuthorizationCode, form: CodeForm, now: int, ch: Choice)
    ensures var o := OnRedeemed(cfg, s, row, form, now, ch); Reports(s.db.audit, o.shared.db.audit, o.note)
  {
    hide HashToken, Log, Reports;
    var token := TokenRow(cfg, row, now, ch);
    var (db, ok) := CreateAccessToken(s.db, token);
    Silent(s, s, CodeWasted(row.codeHash));
    if ok {
      Logs(s, s.(db := db), AccessTokenIssued, "", row.me, row.clientId, now, TokenStored(db.tokens[token.tokenHash], row.codeHash, form));
    }
  }

  lemma BoundReports(cfg: Config, s: Shared, q: AuthorizeQuery, si: SignIn, now: int, ch: Choice)
    ensures var o := OnBound(cfg, s, q, si, now, ch); Reports(s.db.audit, o.shared.db.audit, o.note)
  {
    hide Log, Reports;
    Silent(s, s, Nothing);
    var (db, ok) := CreateAuthRequest(s.db, RequestRow(cfg, q, si, now, ch));
    if ok {
      Logs(s, s.(db := db), AuthRequestCreated, "", si.me, q.clientId, now, RequestStored(db.requests[ch.a], Some(q), si.source));
    }
  }

  lemma EditingReports(cfg: Config, s: Shared, profile: ManagedProfile, credential: string, checkedAt: int, now: int)
    ensures var o := OnEditing(cfg, s, profile, credential, checkedAt, now); Reports(s.db.audit, o.shared.db.audit, o.note)
  {
    hide Log, Reports, ManagedProfileUrl;
    var db := UpdateManagedProfile(s.db, profile.(updatedAt := now)).0;
    Silent(s, s.(db := db), Nothing);
    Logs(s, s.(db := db), ManagedProfileUpdated, profile.subject, ManagedProfileUrl(cfg, profile.handle), "", now,
         ProfileEdited(profile.Holder(), credential, checkedAt));
  }

  lemma ProvisioningReports(cfg: Config, s: Shared, p: Proc, now: int)
    requires (hide *; p.Provisioning?)
    ensures var o := OnProvisioning(cfg, s, p, now); Reports(s.db.audit, o.shared.db.audit, o.note)
  {
    hide *;
    var o := OnProvisioning(cfg, s, p, now);
    ProvisioningQuiet(cfg, s, p, now);
    Silent(s, o.shared, o.note);
    hide OnProvisioning, Reports;
  }

  lemma ProfilesKeepAudit(db: Db, row: ManagedProfile)
    ensures CreateManagedProfile(db, row).0.audit == db.audit && UpdateManagedProfile(db, row).0.audit == db.audit
  {
  }

  lemma ProvisioningQuiet(cfg: Config, s: Shared, p: Proc, now: int)
    requires (hide *; p.Provisioning?)
    ensures var o := OnProvisioning(cfg, s, p, now); o.shared.db.audit == s.db.audit && Reported(o.note).None?
  {
    hide OnLooking, SuffixedHandle, CreateManagedProfile, UpdateManagedProfile, GetManagedProfileByIdentity;
    match p.stage
    case Looking => LookingQuiet(cfg, s, p, now);
    case Renaming(row) => ProfilesKeepAudit(s.db, row);
    case Creating(row) => ProfilesKeepAudit(s.db, row);
    case Rechecking(row) =>
    case Suffixing(row) => ProfilesKeepAudit(s.db, row);
  }

  lemma LookingQuiet(cfg: Config, s: Shared, p: Proc, now: int)
    requires (hide *; p.Provisioning?)
    ensures var o := OnLooking(cfg, s, p, now); o.shared == s && o.note == Nothing
  {
    hide NewProfile, ClaimedName, GetManagedProfileByIdentity;
  }

  lemma AdvanceReports(cfg: Config, s: Shared, p: Proc, now: int, ch: Choice)
    ensures var o := Advance(cfg, s, p, now, ch); Reports(s.db.audit, o.shared.db.audit, o.note)
  {
    hide Begin, OnFound, OnProvisioning, OnMatched, OnRedeemed, OnBound, OnEditing, HashToken;
    match p
    case Arrived(r) => BeginReports(cfg, s, r, now, ch);
    case Found(q, row) => FoundReports(cfg, s, q, row, now, ch);
    case Provisioning(_, _, _, _, _) => ProvisioningReports(cfg, s, p, now);
    case Bound(q, si) => BoundReports(cfg, s, q, si, now, ch);
    case Matched(row, csrf, decision) => MatchedReports(cfg, s, row, csrf, decision, now, ch);
    case Redeemed(row, form) => RedeemedReports(cfg, s, row, form, now, ch);
    case Editing(profile, credential, checkedAt) => EditingReports(cfg, s, profile, credential, checkedAt, now);
    case _ =>
  }

  // ---- Whole runs -------------------------------------------------------------------------

  function Count(audit: seq<AuditEvent>, kind: AuditKind): nat {
    if audit == [] then 0
    else Count(audit[..|audit| - 1], kind) + if audit[|audit| - 1].kind == kind then 1 else 0
  }

  lemma CountNext(before: seq<AuditEvent>, after: seq<AuditEvent>, kind: AuditKind)
    requires |after| == |before| + 1 && after[..|before|] == before
    ensures Count(after, kind) == Count(before, kind) + if after[|before|].kind == kind then 1 else 0
  {
  }

  ghost function Authorized(requests: map<string, RequestOrigin>): set<string> {
    set id | id in requests && requests[id].query.Some?
  }

  /** How many records of success of each kind there are. */
  ghost function Tally(h: History, kind: AuditKind): nat {
    match kind
    case AuthRequestCreated => |Authorized(h.requests)|
    case ConsentRequired => |h.consents.Keys|
    case AuthorizationCodeIssued => |h.codes.Keys|
    case AccessTokenIssued => |h.tokens.Keys|
    case CodeProfileReturned => |CodesAnswered(h.fates)|
    case ManagedProfileUpdated => |h.edits|
    case _ => 0
  }

  /** As many events of each kind of success as there are records of it. */
  ghost predicate Tallies(audit: seq<AuditEvent>, h: History) {
    forall kind :: Success(kind) ==> Count(audit, kind) == Tally(h, kind)
  }

  /** A record adds one to the tally it is reported under, and nothing to the others. */
  lemma RecordTally(cfg: Config, h: History, pid: nat, now: int, n: Note, kind: AuditKind)
    requires FatesOk(h.codes, h.fates, h.presented, h.tokens) && NoteOk(cfg, h, pid, now, n) && Success(kind)
    ensures Tally(Record(h, pid, now, n), kind) == Tally(h, kind) + if Reported(n) == Some(kind) then 1 else 0
  {
    hide FatesOk, NoteOk, Record, CodesAnswered, Authorized, Reported;
    match kind
    case AuthRequestCreated => RequestTallies(cfg, h, pid, now, n);
    case ConsentRequired => RequestTallies(cfg, h, pid, now, n);
    case AuthorizationCodeIssued => CodeTallies(cfg, h, pid, now, n);
    case AccessTokenIssued => CodeTallies(cfg, h, pid, now, n);
    case CodeProfileReturned => AnsweredTally(cfg, h, pid, now, n);
    case ManagedProfileUpdated => EditsTally(h, pid, now, n);
  }

  lemma RequestTallies(cfg: Config, h: History, pid: nat, now: int, n: Note)
    requires NoteOk(cfg, h, pid, now, n)
    ensures var g := Record(h, pid, now, n);
            && |Authorized(g.requests)| == |Authorized(h.requests)| + (if Reported(n) == Some(AuthRequestCreated) then 1 else 0)
            && |g.consents.Keys| == |h.consents.Keys| + (if Reported(n) == Some(ConsentRequired) then 1 else 0)
  {
    hide NoteOk, Record, Authorized;
    RecordedParts(h, pid, now, n);
    RecordedIsNew(cfg, h, pid, now, n);
    AuthorizedTally(h, n, now);
    NewKeys(h, n, now);
  }

  lemma CodeTallies(cfg: Config, h: History, pid: nat, now: int, n: Note)
    requires NoteOk(cfg, h, pid, now, n)
    ensures var g := Record(h, pid, now, n);
            && |g.codes.Keys| == |h.codes.Keys| + (if Reported(n) == Some(AuthorizationCodeIssued) then 1 else 0)
            && |g.tokens.Keys| == |h.tokens.Keys| + (if Reported(n) == Some(AccessTokenIssued) then 1 else 0)
  {
    hide NoteOk, Record;
    RecordedParts(h, pid, now, n);
    RecordedIsNew(cfg, h, pid, now, n);
    NewKeys(h, n, now);
  }

  lemma NewKey<V>(m: map<string, V>, k: string, v: V)
    requires k !in m
    ensures |m[k := v].Keys| == |m.Keys| + 1
  {
    assert m[k := v].Keys == m.Keys + {k};
  }

  lemma NewKeys(h: History, n: Note, now: int)
    requires (n.ConsentStored? ==> n.consent.id !in h.consents) && (n.CodeStored? ==> n.code.codeHash !in h.codes)
    requires n.TokenStored? ==> n.token.tokenHash !in h.tokens
    ensures n.ConsentStored? ==> |h.consents[n.consent.id := ConsentOrigin(n.consent, n.requestId, n.login, now)].Keys| == |h.consents.Keys| + 1
    ensures n.CodeStored? ==> |h.codes[n.code.codeHash := CodeOrigin(n.code, n.cause, now)].Keys| == |h.codes.Keys| + 1
    ensures n.TokenStored? ==> |h.tokens[n.token.tokenHash := TokenOrigin(n.token, n.codeHash, n.form, now)].Keys| == |h.tokens.Keys| + 1
  {
    if n.ConsentStored? {
      NewKey(h.consents, n.consent.id, ConsentOrigin(n.consent, n.requestId, n.login, now));
    }
    if n.CodeStored? {
      NewKey(h.codes, n.code.codeHash, CodeOrigin(n.code, n.cause, now));
    }
    if n.TokenStored? {
      NewKey(h.tokens, n.token.tokenHash, TokenOrigin(n.token, n.codeHash, n.form, now));
    }
  }

  lemma AuthorizedTally(h: History, n: Note, now: int)
    requires n.RequestStored? ==> n.row.id !in h.requests
    ensures n.RequestStored? ==>
              |Authorized(h.requests[n.row.id := RequestOrigin(n.row, n.query, n.source, now)])|
              == |Authorized(h.requests)| + if n.query.Some? then 1 else 0
  {
    hide Authorized;
    if n.RequestStored? {
      AuthorizedNext(h.requests, n.row.id, RequestOrigin(n.row, n.query, n.source, now));
    }
  }

  lemma AuthorizedNext(requests: map<string, RequestOrigin>, id: string, o: RequestOrigin)
    requires id !in requests
    ensures |Authorized(requests[id := o])| == |Authorized(requests)| + if o.query.Some? then 1 else 0
  {
    if o.query.Some? {
      assert Authorized(requests[id := o]) == Authorized(requests) + {id};
    } else {
      assert Authorized(requests[id := o]) == Authorized(requests);
    }
  }

  lemma FateAside(fates: map<string, Fate>, k: string, f: Fate)
    requires !f.Answered? && (k in fates ==> !fates[k].Answered?)
    ensures CodesAnswered(fates[k := f]) == CodesAnswered(fates)
  {
  }

  lemma FateAnswered(fates: map<string, Fate>, k: string)
    requires k in fates ==> !fates[k].Answered?
    ensures |CodesAnswered(fates[k := Answered])| == |CodesAnswered(fates)| + 1
  {
    assert CodesAnswered(fates[k := Answered]) == CodesAnswered(fates) + {k};
  }

  lemma OtherFates(h: History, pid: nat, now: int, n: Note)
    requires !n.CodeStored? && !n.CodePresented? && !n.TokenStored? && !n.CodeWasted?
    ensures Record(h, pid, now, n).fates == h.fates
  {
  }

  /** The fate a record changes was not settled. */
  lemma FateWasOpen(cfg: Config, h: History, pid: nat, now: int, n: Note)
    requires (hide *; FatesOk(h.codes, h.fates, h.presented, h.tokens)) && NoteOk(cfg, h, pid, now, n)
    ensures n.CodeStored? ==> n.code.codeHash !in h.fates
    ensures n.CodePresented? ==> n.codeHash in h.fates && h.fates[n.codeHash].Unredeemed?
    ensures n.TokenStored? || n.CodeWasted? ==> n.codeHash in h.fates && h.fates[n.codeHash].Redeeming?
  {
    hide RequestOk, ConsentOk, CodeOk, TokenOk, CredentialGood;
  }

  lemma AnsweredTally(cfg: Config, h: History, pid: nat, now: int, n: Note)
    requires FatesOk(h.codes, h.fates, h.presented, h.tokens) && NoteOk(cfg, h, pid, now, n)
    ensures |CodesAnswered(Record(h, pid, now, n).fates)| == |CodesAnswered(h.fates)| + if Reported(n) == Some(CodeProfileReturned) then 1 else 0
  {
    hide FatesOk, NoteOk, CodesAnswered, UseFate;
    FateWasOpen(cfg, h, pid, now, n);
    match n {
      case CodeStored(row, _) => FateAside(h.fates, row.codeHash, Unredeemed);
      case CodePresented(hash, use) => PresentedTally(h, pid, now, hash, use);
      case TokenStored(row, hash, _) => FateAside(h.fates, hash, Exchanged(row.tokenHash));
      case CodeWasted(hash) => FateAside(h.fates, hash, Burnt);
      case _ =>
        OtherFates(h, pid, now, n);
        hide Record;
    }
  }

  lemma PresentedTally(h: History, pid: nat, now: int, hash: string, use: Use)
    requires hash in h.fates && h.fates[hash].Unredeemed?
    ensures |CodesAnswered(Record(h, pid, now, CodePresented(hash, use)).fates)| == |CodesAnswered(h.fates)| + if use == ToAnswer then 1 else 0
  {
    hide CodesAnswered;
    if use == ToAnswer {
      FateAnswered(h.fates, hash);
    } else {
      FateAside(h.fates, hash, UseFate(use, pid));
    }
  }

  lemma EditsTally(h: History, pid: nat, now: int, n: Note)
    ensures |Record(h, pid, now, n).edits| == |h.edits| + if Reported(n) == Some(ManagedProfileUpdated) then 1 else 0
  {
    hide UseFate;
    match n {
      case ProfileEdited(_, _, _) =>
      case _ =>
    }
  }

  /** A tally and its count of events move together. */
  lemma TallyNext(before: seq<AuditEvent>, after: seq<AuditEvent>, n: Note, kind: AuditKind)
    requires Reports(before, after, n) && Success(kind)
    ensures Count(after, kind) == Count(before, kind) + if Reported(n) == Some(kind) then 1 else 0
  {
    hide Names, Count, Reported;
    if |after| == |before| + 1 && after[..|before|] == before {
      CountNext(before, after, kind);
    }
  }

  lemma TracedFates(cfg: Config, h: History)
    requires Traced(cfg, h)
    ensures FatesOk(h.codes, h.fates, h.presented, h.tokens)
  {
    hide RequestsTraced, ConsentsTraced, CodesTraced, TokensTraced, FatesOk, EditsTraced;
  }

  lemma StepTallies(cfg: Config, h: History, pid: nat, now: int, n: Note, before: seq<AuditEvent>, after: seq<AuditEvent>)
    requires Tallies(before, h) && Reports(before, after, n) && Traced(cfg, h) && NoteOk(cfg, h, pid, now, n)
    ensures Tallies(after, Record(h, pid, now, n))
  {
    hide Traced, FatesOk, NoteOk, Record, Tally, Success, Count, Reported, Reports;
    TracedFates(cfg, h);
    forall kind | Success(kind)
      ensures Count(after, kind) == Tally(Record(h, pid, now, n), kind)
    {
      RecordTally(cfg, h, pid, now, n, kind);
      TallyNext(before, after, n, kind);
    }
  }

  /** In every state of every run the audit trail counts every success exactly once. */
  lemma {:induction false} AuditTallies(cfg: Config, states: seq<Sys>, events: seq<Event>, i: nat)
    requires (hide *; IsRun(cfg, states, events)) && i < |states|
    ensures Tallies(states[i].shared.db.audit, states[i].hist)
  {
    hide Advance, Fresh, Enabled, Inv, NoteOk, ChoiceOk, Record, Tallies, Reports;
    if i == 0 {
      assert Initial(states[0]);
      NothingTallied();
    } else {
      hide Initial;
      AuditTallies(cfg, states, events, i - 1);
      OneStep(cfg, states, events, i - 1);
      var s := states[i - 1];
      match events[i - 1]
      case Resume(pid, ch) =>
        ResumeStep(cfg, states, events, i - 1);
        StepNoteOk(cfg, states, events, i - 1, pid, ch, s.procs[pid]);
        RunKeepsInv(cfg, states, events, i - 1);
        InvTraced(cfg, s);
        var o := OutcomeAt(cfg, states, i - 1, s.procs[pid], ch);
        AdvanceReports(cfg, s.shared, s.procs[pid], s.now, ch);
        StepTallies(cfg, s.hist, pid, s.now, o.note, s.shared.db.audit, o.shared.db.audit);
      case _ =>
    }
  }

  lemma InvTraced(cfg: Config, s: Sys)
    requires Inv(cfg, s)
    ensures Traced(cfg, s.hist)
  {
    hide Traced, Kept, SecretsDrawn, ProcsOk;
  }

  lemma NothingTallied()
    ensures Tallies([], History(map[], map[], map[], map[], map[], map[], {}, map[], map[], []))
  {
    assert Authorized(map[]) == {} && CodesAnswered(map[]) == {};
    forall kind | Success(kind)
      ensures Tally(History(map[], map[], map[], map[], map[], map[], {}, map[], map[], []), kind) == 0
    {
    }
  }

  /** The event of a step of success names the client and profile of its record. */
  lemma SuccessNamed(cfg: Config, states: seq<Sys>, events: seq<Event>, i: nat, pid: nat, ch: Choice, p: Proc)
    requires (hide Step, Advance; IsRun(cfg, states, events)) && StepOf(cfg, states, events, i, pid, ch, p)
    ensures Reports(states[i].shared.db.audit, states[i + 1].shared.db.audit, OutcomeAt(cfg, states, i, p, ch).note)
  {
    hide Advance, Fresh, Initial, Inv, ChoiceOk, Record, Reports;
    ResumeStep(cfg, states, events, i);
    AdvanceReports(cfg, states[i].shared, p, states[i].now, ch);
  }
}
