/**
 Runs whose handlers are not interrupted by other requests or by the clock
 (cleanups may come in between): there an authorization request gives at most
 one consent, one code and one token, and all of them are over in bounded
 time. With requests interleaved the first part fails; `Overlap` says exactly
 when.
 */
module Serial {
  import opened Prelude
  import opened Text
  import opened Library
  import opened Config
  import opened Handles
  import opened Tables
  import opened Handlers
  import opened Runs
  import opened Invariant
  import opened HistorySteps
  import opened Preservation
  import opened Traces
  import opened Provenance
  import opened Introspection

  /** A new request starts, and time passes, only while none is in flight. */
  ghost predicate IsSerial(states: seq<Sys>, events: seq<Event>) {
    forall i :: 0 <= i < |events| && i < |states| && (events[i].Start? || events[i].Tick?) ==> states[i].procs == map[]
  }

  // ---- The invariant ----------------------------------------------------------------------

  /** The requests in flight are `flight` and no others. */
  ghost predicate Alone(procs: map<nat, Proc>, flight: Option<Proc>) {
    && (procs == map[] <==> flight == None)
    && (forall pid :: pid in procs ==> flight == Some(procs[pid]))
    && (forall a, b :: a in procs && b in procs ==> a == b)
  }

  /** An authorization request that led to a consent or a code is gone, or about to be deleted. */
  predicate RequestSpent(rows: map<string, AuthRequest>, id: string, flight: Option<Proc>) {
    id !in rows || flight == Some(Dropping(id))
  }

  predicate ConsentSpent(rows: map<string, ConsentRequest>, id: string, flight: Option<Proc>) {
    id !in rows || flight == Some(DroppingConsent(id))
  }

  ghost predicate ConsentFrom(consents: map<string, ConsentOrigin>, id: string) {
    exists c :: c in consents && consents[c].requestId == id
  }

  predicate CausedByLogin(cause: Cause, id: string) {
    cause.Login? && cause.requestId == id
  }

  predicate CausedByApproval(cause: Cause, id: string) {
    cause.Approval? && cause.consentId == id
  }

  predicate SameCause(a: Cause, b: Cause) {
    if a.Login? then CausedByLogin(b, a.requestId) else CausedByApproval(b, a.consentId)
  }

  ghost predicate ConsentsLinear(consents: map<string, ConsentOrigin>, rows: map<string, AuthRequest>, flight: Option<Proc>) {
    && (forall c :: c in consents ==> RequestSpent(rows, consents[c].requestId, flight))
    && (forall c, d :: c in consents && d in consents && consents[c].requestId == consents[d].requestId ==> c == d)
  }

  ghost predicate CodesLinear(codes: map<string, CodeOrigin>, rows: map<string, AuthRequest>, consents: map<string, ConsentRequest>, flight: Option<Proc>) {
    && (forall k :: k in codes ==>
          if codes[k].cause.Login? then RequestSpent(rows, codes[k].cause.requestId, flight)
          else ConsentSpent(consents, codes[k].cause.consentId, flight))
    && (forall k, l :: k in codes && l in codes && SameCause(codes[k].cause, codes[l].cause) ==> k == l)
  }

  predicate ConsentInTime(o: ConsentOrigin, requests: map<string, RequestOrigin>) {
    o.requestId in requests && o.at <= requests[o.requestId].row.expiresAt
  }

  predicate CodeInTime(o: CodeOrigin, requests: map<string, RequestOrigin>, consents: map<string, ConsentOrigin>) {
    match o.cause
    case Login(id, _) => id in requests && o.at <= requests[id].row.expiresAt
    case Approval(id, _) => id in consents && o.at < consents[id].row.expiresAt
  }

  predicate TokenInTime(o: TokenOrigin, codes: map<string, CodeOrigin>) {
    o.codeHash in codes && o.at < codes[o.codeHash].row.expiresAt
  }

  /** Each record was made before what it rests on expired. */
  ghost predicate Timely(h: History) {
    && (forall c :: c in h.consents ==> ConsentInTime(h.consents[c], h.requests))
    && (forall k :: k in h.codes ==> CodeInTime(h.codes[k], h.requests, h.consents))
    && (forall t :: t in h.tokens ==> TokenInTime(h.tokens[t], h.codes))
  }

  /** What the request in flight is about to use is unspent and unexpired. */
  ghost predicate FlightOk(now: int, h: History, flight: Option<Proc>) {
    match flight
    case Some(Found(_, row)) =>
      && now <= row.expiresAt && !ConsentFrom(h.consents, row.id)
      && forall k :: k in h.codes ==> !CausedByLogin(h.codes[k].cause, row.id)
    case Some(Matched(row, _, _)) =>
      now < row.expiresAt && forall k :: k in h.codes ==> !CausedByApproval(h.codes[k].cause, row.id)
    case Some(Redeemed(code, _)) => now < code.expiresAt
    case _ => true
  }

  ghost predicate Linear(now: int, db: Db, h: History, flight: Option<Proc>) {
    && ConsentsLinear(h.consents, db.requests, flight)
    && CodesLinear(h.codes, db.requests, db.consents, flight)
    && Timely(h) && FlightOk(now, h, flight)
  }

  // ---- What a step does ---------------------------------------------------------------------

  /** The outcome of `p`, as far as it matters here. */
  ghost predicate Shaped(s: Shared, p: Proc, now: int, ch: Choice, o: Outcome) {
    hide *;
    && (match o.note
        case ConsentStored(_, id, _) => p.Found? && p.row.id == id && o.next == Some(Dropping(id))
        case CodeStored(_, Login(id, _)) => p.Found? && p.row.id == id && o.next == Some(Dropping(id))
        case CodeStored(_, Approval(id, _)) => p.Matched? && p.consent.id == id && o.next == Some(DroppingConsent(id))
        case TokenStored(_, hash, _) => p.Redeemed? && p.code.codeHash == hash
        case _ => true)
    && (match o.next
        case Some(Found(q, row)) => o.note == Nothing && p.Searching? && GetAuthRequest(s.db, ch.backend, q.state, now) == Ok(row)
        case Some(Matched(row, _, _)) => o.note == Nothing && p.Arrived? && p.request.ConsentAnswer? && GetConsentRequest(s.db, p.request.id, now) == Ok(row)
        case Some(Redeemed(code, form)) => o.note.CodePresented? && exists hash :: ConsumeAuthorizationCode(s.db, hash, now).1 == Ok(code)
        case _ => true)
    && (forall id :: id in o.shared.db.requests ==> id in s.db.requests || (o.note.RequestStored? && o.note.row.id == id))
    && (forall id :: id in o.shared.db.consents ==> id in s.db.consents || (o.note.ConsentStored? && o.note.consent.id == id))
    && (p.Dropping? ==> p.requestId !in o.shared.db.requests)
    && (p.DroppingConsent? ==> p.consentId !in o.shared.db.consents)
  }

  /** A step that touches neither requests nor consents, and at most presents a code, has the shape. */
  lemma UntouchedShaped(s: Shared, p: Proc, now: int, ch: Choice, o: Outcome)
    requires (hide *; o.shared.db.requests == s.db.requests) && o.shared.db.consents == s.db.consents && p.Arrived?
    requires !o.note.ConsentStored? && !o.note.CodeStored? && !o.note.TokenStored?
    requires o.next.Some? ==> (o.next.value.Redeemed? && o.note.CodePresented?
               && exists hash :: ConsumeAuthorizationCode(s.db, hash, now).1 == Ok(o.next.value.code))
    ensures Shaped(s, p, now, ch, o)
  {
    hide GetConsentRequest, GetAuthRequest, ConsumeAuthorizationCode;
  }

  /** The same requests, consents and profiles. */
  predicate SameRest(s: Shared, t: Shared) {
    t.db.requests == s.db.requests && t.db.consents == s.db.consents && t.db.profiles == s.db.profiles
  }

  lemma LogKeepsRest(s: Shared, t: Shared, kind: AuditKind, subject: string, me: string, clientId: string, now: int)
    requires SameRest(s, t)
    ensures SameRest(s, Log(t, kind, subject, me, clientId, now))
  {
  }

  lemma ExchangeTables(cfg: Config, s: Shared, form: CodeForm, now: int)
    ensures SameRest(s, OnExchange(cfg, s, form, now).shared)
  {
    hide PresentationOk, ConsumeAuthorizationCode, HashToken, RefusedClient, Log, SameRest;
    var (db, r) := ConsumeAuthorizationCode(s.db, HashToken(cfg.lib, form.code), now);
    ConsumeKeepsRest(s, HashToken(cfg.lib, form.code), now);
    LogKeepsRest(s, s, TokenExchangeRejected, "", "", form.clientId, now);
    if r.Ok? {
      LogKeepsRest(s, s.(db := db), TokenExchangeRejected, "", r.value.me, RefusedClient(r.value, form), now);
    }
  }

  lemma CodeProfileTables(cfg: Config, s: Shared, form: CodeForm, now: int)
    ensures SameRest(s, OnCodeProfile(cfg, s, form, now).shared)
  {
    hide PresentationOk, ConsumeAuthorizationCode, HashToken, RefusedClient, Log, SameRest;
    var (db, r) := ConsumeAuthorizationCode(s.db, HashToken(cfg.lib, form.code), now);
    ConsumeKeepsRest(s, HashToken(cfg.lib, form.code), now);
    LogKeepsRest(s, s, CodeProfileRejected, "", "", form.clientId, now);
    if r.Ok? {
      LogKeepsRest(s, s.(db := db), CodeProfileRejected, "", r.value.me, RefusedClient(r.value, form), now);
      LogKeepsRest(s, s.(db := db), CodeProfileReturned, "", r.value.me, r.value.clientId, now);
    }
  }

  lemma ExchangeNext(cfg: Config, s: Shared, form: CodeForm, now: int)
    ensures (hide *; var o := OnExchange(cfg, s, form, now);
            && (o.note == Nothing || o.note.CodePresented?)
            && (o.next.Some? ==> o.note.CodePresented? && o.next.value.Redeemed?)
            && (o.next.Some? ==> ConsumeAuthorizationCode(s.db, HashToken(cfg.lib, form.code), now).1 == Ok(o.next.value.code)))
    ensures var o := OnCodeProfile(cfg, s, form, now); (o.note == Nothing || o.note.CodePresented?) && o.next == None
  {
    hide PresentationOk, ConsumeAuthorizationCode, HashToken, RefusedClient;
  }

  lemma PresentationShaped(cfg: Config, s: Shared, form: CodeForm, now: int, ch: Choice)
    ensures Shaped(s, Arrived(Exchange(form)), now, ch, OnExchange(cfg, s, form, now))
    ensures Shaped(s, Arrived(CodeProfile(form)), now, ch, OnCodeProfile(cfg, s, form, now))
  {
    hide OnExchange, OnCodeProfile, ConsumeAuthorizationCode, HashToken, Shaped;
    ExchangeTables(cfg, s, form, now);
    CodeProfileTables(cfg, s, form, now);
    ExchangeNext(cfg, s, form, now);
    UntouchedShaped(s, Arrived(Exchange(form)), now, ch, OnExchange(cfg, s, form, now));
    UntouchedShaped(s, Arrived(CodeProfile(form)), now, ch, OnCodeProfile(cfg, s, form, now));
  }

  lemma UntouchedOnward(s: Shared, p: Proc, now: int, ch: Choice, o: Outcome)
    requires (hide *; o.shared.db.requests == s.db.requests) && o.shared.db.consents == s.db.consents && p.Arrived? && o.note == Nothing
    requires o.next.Some? ==> o.next.value.Revoking? || o.next.value.Editing?
    ensures Shaped(s, p, now, ch, o)
  {
    hide GetConsentRequest, GetAuthRequest, ConsumeAuthorizationCode;
  }

  lemma QuietShaped(cfg: Config, s: Shared, r: Request, now: int, ch: Choice)
    requires r.Introspect? || r.Revoke? || r.EditProfile? || r.StartTest?
    ensures Shaped(s, Arrived(r), now, ch, Begin(cfg, s, r, now, ch))
  {
    hide EditOk, Edited, OpenSetup, GetAccessToken, TesterPayload, HashToken, Shaped;
    UntouchedOnward(s, Arrived(r), now, ch, Begin(cfg, s, r, now, ch));
  }

  lemma BeginShaped(cfg: Config, s: Shared, r: Request, now: int, ch: Choice)
    ensures Shaped(s, Arrived(r), now, ch, Begin(cfg, s, r, now, ch))
  {
    hide CheckAuthorize, ResolveProfile, RequestedMe, EditOk, OpenSetup, GetConsentRequest, GetAuthRequest, GetAccessToken,
      ConsumeAuthorizationCode, OnExchange, OnCodeProfile, OnIntrospect, OnRevoke, OnEditProfile, OnStartTest;
    match r
    case Exchange(form) => PresentationShaped(cfg, s, form, now, ch);
    case CodeProfile(form) => PresentationShaped(cfg, s, form, now, ch);
    case Introspect(_) => QuietShaped(cfg, s, r, now, ch);
    case Revoke(_) => QuietShaped(cfg, s, r, now, ch);
    case EditProfile(_) => QuietShaped(cfg, s, r, now, ch);
    case StartTest(_) => QuietShaped(cfg, s, r, now, ch);
    case _ =>
  }

  lemma ConsumeKeepsRest(s: Shared, hash: string, now: int)
    ensures SameRest(s, s) && SameRest(s, s.(db := ConsumeAuthorizationCode(s.db, hash, now).0))
  {
  }

  lemma FoundShaped(cfg: Config, s: Shared, p: Proc, now: int, ch: Choice)
    requires (hide *; p.Found?)
    ensures Shaped(s, p, now, ch, OnFound(cfg, s, p.callback, p.row, now, ch))
  {
    hide GetAuthRequest, GetConsentRequest, ConsumeAuthorizationCode, LoginAllowed, CompleteAuth, SetupPayload;
  }

  lemma MatchedShaped(cfg: Config, s: Shared, p: Proc, now: int, ch: Choice)
    requires (hide *; p.Matched?)
    ensures Shaped(s, p, now, ch, OnMatched(cfg, s, p.consent, p.csrf, p.decision, now, ch))
  {
    hide GetAuthRequest, GetConsentRequest, ConsumeAuthorizationCode;
  }

  lemma ProfilesKeepRest(db: Db, row: ManagedProfile)
    ensures CreateManagedProfile(db, row).0.requests == db.requests && CreateManagedProfile(db, row).0.consents == db.consents
    ensures UpdateManagedProfile(db, row).0.requests == db.requests && UpdateManagedProfile(db, row).0.consents == db.consents
  {
  }

  lemma ProvisioningShaped(cfg: Config, s: Shared, p: Proc, now: int, ch: Choice)
    requires (hide *; p.Provisioning?)
    ensures Shaped(s, p, now, ch, OnProvisioning(cfg, s, p, now))
  {
    hide OnLooking, CreateManagedProfile, UpdateManagedProfile, SuffixedHandle, GetManagedProfileByIdentity, GetAuthRequest, GetConsentRequest,
      ConsumeAuthorizationCode;
    match p.stage
    case Looking => LookingShaped(cfg, s, p, now, ch);
    case Renaming(row) => ProfilesKeepRest(s.db, row);
    case Creating(row) => ProfilesKeepRest(s.db, row);
    case Rechecking(row) =>
    case Suffixing(row) => ProfilesKeepRest(s.db, row);
  }

  lemma LookingShaped(cfg: Config, s: Shared, p: Proc, now: int, ch: Choice)
    requires (hide *; p.Provisioning?)
    ensures Shaped(s, p, now, ch, OnLooking(cfg, s, p, now))
  {
    hide TrimSpace, NewProfile, ClaimedName, GetManagedProfileByIdentity, GetAuthRequest, GetConsentRequest, ConsumeAuthorizationCode;
  }

  lemma AdvanceShaped(cfg: Config, s: Shared, p: Proc, now: int, ch: Choice)
    ensures Shaped(s, p, now, ch, Advance(cfg, s, p, now, ch))
  {
    hide Begin, GetAuthRequest, GetConsentRequest, ConsumeAuthorizationCode, OnProvisioning, OnFound, OnMatched, UpdateManagedProfile;
    match p
    case Arrived(r) => BeginShaped(cfg, s, r, now, ch);
    case Provisioning(_, _, _, _, _) => ProvisioningShaped(cfg, s, p, now, ch);
    case Found(_, _) => FoundShaped(cfg, s, p, now, ch);
    case Matched(_, _, _) => MatchedShaped(cfg, s, p, now, ch);
    case Editing(profile, _, _) => ProfilesKeepRest(s.db, profile.(updatedAt := now));
    case _ =>
  }

  // ---- Every step keeps it ---------------------------------------------------------------------

  /** After the step of `p` no row remains of what was spent, and nothing but `added` was added. */
  ghost predicate Swept<V>(rows: map<string, V>, rows': map<string, V>, dropped: Option<string>, added: set<string>) {
    && (forall id :: id in rows' ==> id in rows || id in added)
    && (dropped.Some? ==> dropped.value !in rows')
  }

  function DroppedRequest(p: Proc): Option<string> {
    if p.Dropping? then Some(p.requestId) else None
  }

  function DroppedConsent(p: Proc): Option<string> {
    if p.DroppingConsent? then Some(p.consentId) else None
  }

  function AddedRequest(n: Note): set<string> {
    if n.RequestStored? then {n.row.id} else {}
  }

  function AddedConsent(n: Note): set<string> {
    if n.ConsentStored? then {n.consent.id} else {}
  }

  lemma ShapedSweeps(s: Shared, p: Proc, now: int, ch: Choice, o: Outcome)
    requires Shaped(s, p, now, ch, o)
    ensures Swept(s.db.requests, o.shared.db.requests, DroppedRequest(p), AddedRequest(o.note))
    ensures Swept(s.db.consents, o.shared.db.consents, DroppedConsent(p), AddedConsent(o.note))
  {
    hide GetAuthRequest, GetConsentRequest, ConsumeAuthorizationCode;
  }

  lemma OldConsents(consents: map<string, ConsentOrigin>, rows: map<string, AuthRequest>, rows': map<string, AuthRequest>, p: Proc,
                    next: Option<Proc>, added: set<string>)
    requires ConsentsLinear(consents, rows, Some(p)) && Swept(rows, rows', DroppedRequest(p), added)
    requires forall c :: c in consents ==> consents[c].requestId !in added
    ensures ConsentsLinear(consents, rows', next)
  {
  }

  lemma NewConsent(consents: map<string, ConsentOrigin>, rows: map<string, AuthRequest>, c: string, o: ConsentOrigin)
    requires ConsentsLinear(consents, rows, Some(Dropping(o.requestId))) && !ConsentFrom(consents, o.requestId)
    ensures ConsentsLinear(consents[c := o], rows, Some(Dropping(o.requestId)))
  {
  }

  /** What the records rest on is not what the step adds. */
  lemma CausesAreOld(cfg: Config, h: History, pid: nat, now: int, n: Note)
    requires (hide *; Timely(h)) && NoteOk(cfg, h, pid, now, n)
    ensures forall c :: c in h.consents ==> h.consents[c].requestId !in AddedRequest(n)
    ensures forall k :: k in h.codes ==>
              match h.codes[k].cause
              case Login(id, _) => id !in AddedRequest(n)
              case Approval(id, _) => id !in AddedConsent(n)
  {
    hide RequestOk, ConsentOk, CodeOk, TokenOk, CredentialGood;
  }

  /** What a new record rests on was unspent. */
  lemma CauseUnspent(s: Shared, h: History, p: Proc, now: int, ch: Choice, o: Outcome)
    requires (hide *; FlightOk(now, h, Some(p))) && Shaped(s, p, now, ch, o)
    ensures o.note.ConsentStored? ==> o.next == Some(Dropping(o.note.requestId)) && !ConsentFrom(h.consents, o.note.requestId)
    ensures o.note.CodeStored? ==>
              && o.next == Some(match o.note.cause case Login(id, _) => Dropping(id) case Approval(id, _) => DroppingConsent(id))
              && forall k :: k in h.codes ==> !SameCause(o.note.cause, h.codes[k].cause)
  {
    hide ConsentFrom, GetAuthRequest, GetConsentRequest, ConsumeAuthorizationCode;
  }

  lemma ConsentsStayLinear(cfg: Config, s: Shared, h: History, pid: nat, p: Proc, now: int, ch: Choice, o: Outcome)
    requires Timely(h) && FlightOk(now, h, Some(p)) && ConsentsLinear(h.consents, s.db.requests, Some(p))
    requires Shaped(s, p, now, ch, o) && NoteOk(cfg, h, pid, now, o.note)
    ensures ConsentsLinear(Record(h, pid, now, o.note).consents, o.shared.db.requests, o.next)
  {
    hide Record, Shaped, Linear, CodesLinear, ConsentsLinear, Timely, FlightOk, Swept, NoteOk, UseFate, ConsentFrom, SameCause, AddedRequest,
      AddedConsent;
    ShapedSweeps(s, p, now, ch, o);
    CausesAreOld(cfg, h, pid, now, o.note);
    CauseUnspent(s, h, p, now, ch, o);
    OldConsents(h.consents, s.db.requests, o.shared.db.requests, p, o.next, AddedRequest(o.note));
    RecordedParts(h, pid, now, o.note);
    if o.note.ConsentStored? {
      NewConsent(h.consents, o.shared.db.requests, o.note.consent.id, ConsentOrigin(o.note.consent, o.note.requestId, o.note.login, now));
    }
  }

  lemma OldCodes(codes: map<string, CodeOrigin>, rows: map<string, AuthRequest>, rows': map<string, AuthRequest>,
                 consents: map<string, ConsentRequest>, consents': map<string, ConsentRequest>, p: Proc, next: Option<Proc>,
                 added: set<string>, addedConsents: set<string>)
    requires CodesLinear(codes, rows, consents, Some(p))
    requires Swept(rows, rows', DroppedRequest(p), added) && Swept(consents, consents', DroppedConsent(p), addedConsents)
    requires forall k :: k in codes ==>
               match codes[k].cause
               case Login(id, _) => id !in added
               case Approval(id, _) => id !in addedConsents
    ensures CodesLinear(codes, rows', consents', next)
  {
  }

  lemma NewCode(codes: map<string, CodeOrigin>, rows: map<string, AuthRequest>, consents: map<string, ConsentRequest>, k: string, o: CodeOrigin)
    requires var next := if o.cause.Login? then Dropping(o.cause.requestId) else DroppingConsent(o.cause.consentId);
             CodesLinear(codes, rows, consents, Some(next))
    requires forall l :: l in codes ==> !SameCause(o.cause, codes[l].cause)
    ensures var next := if o.cause.Login? then Dropping(o.cause.requestId) else DroppingConsent(o.cause.consentId);
            CodesLinear(codes[k := o], rows, consents, Some(next))
  {
    forall l | l in codes
      ensures !SameCause(codes[l].cause, o.cause)
    {
    }
  }

  lemma CodesStayLinear(cfg: Config, s: Shared, h: History, pid: nat, p: Proc, now: int, ch: Choice, o: Outcome)
    requires Timely(h) && FlightOk(now, h, Some(p)) && CodesLinear(h.codes, s.db.requests, s.db.consents, Some(p))
    requires Shaped(s, p, now, ch, o) && NoteOk(cfg, h, pid, now, o.note)
    ensures CodesLinear(Record(h, pid, now, o.note).codes, o.shared.db.requests, o.shared.db.consents, o.next)
  {
    hide *;
    ShapedSweeps(s, p, now, ch, o);
    CausesAreOld(cfg, h, pid, now, o.note);
    CauseUnspent(s, h, p, now, ch, o);
    OldCodes(h.codes, s.db.requests, o.shared.db.requests, s.db.consents, o.shared.db.consents, p, o.next, AddedRequest(o.note), AddedConsent(o.note));
    RecordedParts(h, pid, now, o.note);
    if o.note.CodeStored? {
      NewCode(h.codes, o.shared.db.requests, o.shared.db.consents, o.note.code.codeHash, CodeOrigin(o.note.code, o.note.cause, now));
    }
  }

  /** What a step is about to record is in time. */
  lemma RecordsInTime(cfg: Config, s: Shared, h: History, pid: nat, p: Proc, now: int, ch: Choice, o: Outcome)
    requires (hide *; FlightOk(now, h, Some(p))) && Shaped(s, p, now, ch, o) && ProcOk(cfg, h, pid, now, p) && NoteOk(cfg, h, pid, now, o.note)
    ensures o.note.ConsentStored? ==> ConsentInTime(ConsentOrigin(o.note.consent, o.note.requestId, o.note.login, now), h.requests)
    ensures o.note.CodeStored? ==> CodeInTime(CodeOrigin(o.note.code, o.note.cause, now), h.requests, h.consents)
    ensures o.note.TokenStored? ==> TokenInTime(TokenOrigin(o.note.token, o.note.codeHash, o.note.form, now), h.codes)
  {
    hide RequestOk, ConsentOk, CodeOk, TokenOk, CredentialGood, GetAuthRequest, GetConsentRequest, ConsumeAuthorizationCode, ConsentFrom, SignInOk,
      QueryOk, PresentationOk, StageOk;
  }

  lemma StaysTimely(h: History, g: History, pid: nat, now: int, n: Note)
    requires Timely(h) && g == Record(h, pid, now, n)
    requires SubMap(h.requests, g.requests) && SubMap(h.consents, g.consents) && SubMap(h.codes, g.codes)
    requires n.ConsentStored? ==> ConsentInTime(ConsentOrigin(n.consent, n.requestId, n.login, now), h.requests)
    requires n.CodeStored? ==> CodeInTime(CodeOrigin(n.code, n.cause, now), h.requests, h.consents)
    requires n.TokenStored? ==> TokenInTime(TokenOrigin(n.token, n.codeHash, n.form, now), h.codes)
    ensures Timely(g)
  {
    hide Record;
    RecordedParts(h, pid, now, n);
  }

  lemma FoundUnspent(cfg: Config, s: Sys, p: Proc, ch: Choice, q: CallbackQuery, row: AuthRequest)
    requires Inv(cfg, s) && p.Searching? && GetAuthRequest(s.shared.db, ch.backend, q.state, s.now) == Ok(row)
    requires Linear(s.now, s.shared.db, s.hist, Some(p))
    ensures FlightOk(s.now, s.hist, Some(Found(q, row)))
  {
    hide Inv, Timely;
    FoundRow(cfg, s, ch.backend, q.state);
    forall c | c in s.hist.consents
      ensures s.hist.consents[c].requestId != row.id
    {
      assert RequestSpent(s.shared.db.requests, s.hist.consents[c].requestId, Some(p));
    }
  }

  lemma MatchedUnspent(cfg: Config, s: Sys, p: Proc, id: string, csrf: string, decision: string)
    requires (hide *; Inv(cfg, s)) && p.Arrived? && GetConsentRequest(s.shared.db, id, s.now).Ok?
    requires Linear(s.now, s.shared.db, s.hist, Some(p))
    ensures FlightOk(s.now, s.hist, Some(Matched(GetConsentRequest(s.shared.db, id, s.now).value, csrf, decision)))
  {
    hide Inv, Timely, ConsentsLinear;
    ConsentRowKnown(cfg, s, id);
  }

  lemma RedeemedUnexpired(db: Db, hash: string, now: int)
    requires ConsumeAuthorizationCode(db, hash, now).1.Ok?
    ensures now < ConsumeAuthorizationCode(db, hash, now).1.value.expiresAt
  {
  }

  lemma FlightStaysOk(cfg: Config, s: Sys, p: Proc, ch: Choice, o: Outcome, g: History)
    requires Inv(cfg, s) && Shaped(s.shared, p, s.now, ch, o) && Linear(s.now, s.shared.db, s.hist, Some(p))
    requires o.note == Nothing ==> g == s.hist
    ensures FlightOk(s.now, g, o.next)
  {
    hide Inv, Linear, GetAuthRequest, GetConsentRequest, ConsumeAuthorizationCode, ConsentFrom;
    match o.next
    case Some(Found(q, row)) => FoundUnspent(cfg, s, p, ch, q, row);
    case Some(Matched(row, csrf, decision)) => MatchedUnspent(cfg, s, p, p.request.id, csrf, decision);
    case Some(Redeemed(code, _)) =>
      var hash :| ConsumeAuthorizationCode(s.shared.db, hash, s.now).1 == Ok(code);
      RedeemedUnexpired(s.shared.db, hash, s.now);
    case _ =>
  }

  lemma ResumeLinear(cfg: Config, s: Sys, pid: nat, ch: Choice)
    requires (hide *; Ready(cfg, s, ch)) && pid in s.procs && Linear(s.now, s.shared.db, s.hist, Some(s.procs[pid]))
    ensures var o := OutcomeOf(cfg, s, pid, ch);
            Linear(s.now, o.shared.db, Record(s.hist, pid, s.now, o.note), o.next)
  {
    hide Advance, Step;
    var p, o := s.procs[pid], OutcomeOf(cfg, s, pid, ch);
    var g := Record(s.hist, pid, s.now, o.note);
    AdvanceShaped(cfg, s.shared, p, s.now, ch);
    AdvanceGood(cfg, s, pid, ch);
    InFlightOk(cfg, s, pid);
    hide Inv, Fresh, Advance, Record, Shaped, NoteOk, Kept, ConsentsLinear, CodesLinear, Timely, FlightOk, ProcOk, NoteSecrets, Later;
    ConsentsStayLinear(cfg, s.shared, s.hist, pid, p, s.now, ch, o);
    CodesStayLinear(cfg, s.shared, s.hist, pid, p, s.now, ch, o);
    RecordsInTime(cfg, s.shared, s.hist, pid, p, s.now, ch, o);
    RecordLater(cfg, s, pid, o.note);
    LaterMaps(s.hist, g);
    StaysTimely(s.hist, g, pid, s.now, o.note);
    NothingRecorded(s.hist, pid, s.now);
    FlightStaysOk(cfg, s, p, ch, o, g);
  }

  lemma NothingRecorded(h: History, pid: nat, now: int)
    ensures Record(h, pid, now, Nothing) == h
  {
  }

  lemma LaterMaps(h: History, g: History)
    requires Later(h, g)
    ensures SubMap(h.requests, g.requests) && SubMap(h.consents, g.consents) && SubMap(h.codes, g.codes)
  {
  }

  lemma AloneNext(procs: map<nat, Proc>, pid: nat, next: Option<Proc>)
    requires pid in procs && Alone(procs, Some(procs[pid]))
    ensures Alone(SetProc(procs, pid, next), next)
  {
    if next == None {
      assert forall q :: q in procs ==> q == pid;
      assert SetProc(procs, pid, next) == map[];
    }
  }

  lemma CleanLinear(now: int, db: Db, h: History, flight: Option<Proc>, part: CleanupPart, at: int)
    requires Linear(now, db, h, flight)
    ensures Linear(now, Purge(db, part, at), h, flight)
  {
    hide Timely, FlightOk;
    forall c | c in h.consents
      ensures RequestSpent(Purge(db, part, at).requests, h.consents[c].requestId, flight)
    {
      assert RequestSpent(db.requests, h.consents[c].requestId, flight);
    }
  }

  lemma {:induction false} RunLinear(cfg: Config, states: seq<Sys>, events: seq<Event>, i: nat) returns (flight: Option<Proc>)
    requires (hide *; IsRun(cfg, states, events)) && IsSerial(states, events) && i < |states|
    ensures Alone(states[i].procs, flight) && Linear(states[i].now, states[i].shared.db, states[i].hist, flight)
  {
    hide Advance, Enabled, Fresh, Linear, Inv;
    if i == 0 {
      flight := None;
      InitialLinear(states[0]);
    } else {
      hide Initial;
      var s, e := states[i - 1], events[i - 1];
      flight := RunLinear(cfg, states, events, i - 1);
      OneStep(cfg, states, events, i - 1);
      match e
      case Tick(elapsed) => TimeLinear(s.now, s.now + elapsed, s.shared.db, s.hist, None);
      case Clean(part, at) => CleanLinear(s.now, s.shared.db, s.hist, flight, part, at);
      case Start(pid, request) =>
        assert s.procs == map[];
        flight := Some(Arrived(request));
        AloneStart(pid, Arrived(request));
        assert states[i].procs == map[][pid := Arrived(request)];
        StartLinear(s.now, s.shared.db, s.hist, request);
      case Resume(pid, ch) =>
        ResumeStep(cfg, states, events, i - 1);
        StepInv(cfg, states, events, i - 1, pid, ch, s.procs[pid]);
        ResumeLinear(cfg, s, pid, ch);
        AloneNext(s.procs, pid, OutcomeOf(cfg, s, pid, ch).next);
        flight := OutcomeOf(cfg, s, pid, ch).next;
    }
  }

  lemma AloneStart(pid: nat, p: Proc)
    ensures Alone(map[][pid := p], Some(p))
  {
    assert pid in map[][pid := p];
  }

  lemma InitialLinear(s: Sys)
    requires Initial(s)
    ensures Alone(s.procs, None) && Linear(s.now, s.shared.db, s.hist, None)
  {
  }

  lemma TimeLinear(now: int, later: int, db: Db, h: History, flight: Option<Proc>)
    requires Linear(now, db, h, flight) && flight == None
    ensures Linear(later, db, h, flight)
  {
  }

  lemma StartLinear(now: int, db: Db, h: History, request: Request)
    requires Linear(now, db, h, None)
    ensures Linear(now, db, h, Some(Arrived(request)))
  {
    hide Timely;
  }

  // ---- What follows -----------------------------------------------------------------------------

  /** The code goes back to this authorization request, directly or through a consent. */
  ghost predicate CodeOfRequest(h: History, k: string, id: string) {
    && k in h.codes
    && match h.codes[k].cause
       case Login(requestId, _) => requestId == id
       case Approval(consentId, _) => consentId in h.consents && h.consents[consentId].requestId == id
  }

  ghost predicate TokenOfRequest(h: History, t: string, id: string) {
    t in h.tokens && CodeOfRequest(h, h.tokens[t].codeHash, id)
  }

  /** One authorization request, at most one consent, one code and one token, in the whole run. */
  lemma OnePerRequest(cfg: Config, states: seq<Sys>, events: seq<Event>, i: nat, id: string)
    requires (hide *; IsRun(cfg, states, events)) && IsSerial(states, events) && i < |states|
    ensures var h := states[i].hist;
            && (forall c, d :: c in h.consents && d in h.consents && h.consents[c].requestId == id && h.consents[d].requestId == id ==> c == d)
            && (forall k, l :: CodeOfRequest(h, k, id) && CodeOfRequest(h, l, id) ==> k == l)
            && (forall t, u :: TokenOfRequest(h, t, id) && TokenOfRequest(h, u, id) ==> t == u)
  {
    hide Initial, Enabled, Step, Inv, Timely, FlightOk;
    var h := states[i].hist;
    var flight := RunLinear(cfg, states, events, i);
    RunKeepsInv(cfg, states, events, i);
    CodesUnique(cfg, states[i], flight, id);
    forall t, u | TokenOfRequest(h, t, id) && TokenOfRequest(h, u, id)
      ensures t == u
    {
      TokenKnown(cfg, states[i], t);
      TokenKnown(cfg, states[i], u);
    }
  }

  lemma TokenKnown(cfg: Config, s: Sys, t: string)
    requires (hide *; Inv(cfg, s)) && t in s.hist.tokens
    ensures TokenOk(cfg, s.hist.codes, s.hist.fates, t, s.hist.tokens[t])
  {
    hide TokenOk, RequestsTraced, ConsentsTraced, CodesTraced, FatesOk, EditsTraced, Kept, SecretsDrawn, ProcsOk;
  }

  lemma CodesUnique(cfg: Config, s: Sys, flight: Option<Proc>, id: string)
    requires Inv(cfg, s) && Linear(s.now, s.shared.db, s.hist, flight)
    ensures forall k, l :: CodeOfRequest(s.hist, k, id) && CodeOfRequest(s.hist, l, id) ==> k == l
  {
    hide Inv, Timely, FlightOk, LoginOk;
    forall k, l | CodeOfRequest(s.hist, k, id) && CodeOfRequest(s.hist, l, id)
      ensures k == l
    {
      CodeKnown(cfg, s, k);
      CodeKnown(cfg, s, l);
      OneWay(cfg, s, k);
      OneWay(cfg, s, l);
      assert SameCause(s.hist.codes[k].cause, s.hist.codes[l].cause);
    }
  }

  /** Codes come by the one way the configuration prescribes. */
  lemma OneWay(cfg: Config, s: Sys, k: string)
    requires (hide *; Inv(cfg, s)) && k in s.hist.codes
    ensures s.hist.codes[k].cause.Approval? <==> cfg.consentRequired
  {
    hide Inv, LoginOk, RequestsTraced;
    CodeKnown(cfg, s, k);
    if s.hist.codes[k].cause.Approval? {
      ConsentKnown(cfg, s, s.hist.codes[k].cause.consentId);
    }
  }

  /** The longest a sign-in can last, from the `/authorize` step to the end of its token. */
  function Deadline(cfg: Config, authorized: int): int {
    authorized + cfg.requestTtl + cfg.codeTtl + (if cfg.consentRequired then cfg.codeTtl else 0) + cfg.tokenTtl
  }

  lemma TokenDeadline(cfg: Config, s: Sys, flight: Option<Proc>, t: string) returns (id: string)
    requires (hide *; Inv(cfg, s)) && Linear(s.now, s.shared.db, s.hist, flight) && t in s.hist.tokens
    ensures TokenOfRequest(s.hist, t, id) && id in s.hist.requests
    ensures s.hist.tokens[t].row.expiresAt < Deadline(cfg, s.hist.requests[id].at)
    ensures var r, row := s.hist.requests[id].row, s.hist.tokens[t].row; row.me == r.me && row.clientId == r.clientId && row.scope == r.scope
    ensures s.hist.requests[id].query.Some?
  {
    hide Inv, ConsentsLinear, CodesLinear, FlightOk, LoginAllowed, PresentationOk, QueryOk, SignInOk;
    TokenKnown(cfg, s, t);
    var token := s.hist.tokens[t];
    assert TokenInTime(token, s.hist.codes);
    var k := token.codeHash;
    CodeKnown(cfg, s, k);
    OneWay(cfg, s, k);
    var code := s.hist.codes[k];
    assert CodeInTime(code, s.hist.requests, s.hist.consents);
    match code.cause {
      case Login(requestId, _) => id := requestId;
      case Approval(consentId, _) =>
        ConsentKnown(cfg, s, consentId);
        assert ConsentInTime(s.hist.consents[consentId], s.hist.requests);
        id := s.hist.consents[consentId].requestId;
    }
    RequestKnown(cfg, s, id);
  }

  /**
   A token reported active belongs to an `/authorize` request, by the client and for the scope it
   reports, whose deadline has not come.
   */
  lemma ActiveBeforeDeadline(cfg: Config, states: seq<Sys>, events: seq<Event>, j: nat, token: string) returns (s: Sending)
    requires (hide Step, Advance; IsRun(cfg, states, events)) && IsSerial(states, events) && j < |events|
    requires Enabled(cfg, states[j], events[j]) && Asks(states[j], events[j], token)
    requires ReplyOf(cfg, states[j], events[j]) != Some(TokenInactive)
    ensures s.sent < j && Sent(cfg, states, events, s) && states[j].now < Deadline(cfg, states[s.sent].now)
    ensures var r := ReplyOf(cfg, states[j], events[j]);
            r.Some? && r.value.TokenActive? && r.value.clientId == s.query.clientId && r.value.scope == s.query.scope && r.value.me == s.signIn.me
  {
    hide Initial, Enabled, Step, ReplyOf, Inv, Linear, TokenOfRequest, Sent, StepOf;
    IntrospectionExact(cfg, states, events, j, token);
    RunKeepsInv(cfg, states, events, j);
    var flight := RunLinear(cfg, states, events, j);
    var id := TokenDeadline(cfg, states[j], flight, HashToken(cfg.lib, token));
    s := RequestTrail(cfg, states, events, j, id);
  }

  // ---- A wrong answer ----------------------------------------------------------------------------

  /** An answer without the consent's own anti-forgery token changes nothing but the audit trail; the consent can still be given. */
  lemma WrongTokenHarmless(s: Shared, id: string, csrf: string, decision: string, now: int, later: int)
    requires GetConsentRequest(s.db, id, now).Ok? && csrf != GetConsentRequest(s.db, id, now).value.csrfToken
    ensures var o := OnConsentAnswer(s, id, csrf, decision, now);
            && o.reply == Some(HttpError(400)) && o.next == None && o.note == Nothing
            && GetConsentRequest(o.shared.db, id, later) == GetConsentRequest(s.db, id, later)
            && o.shared == s.(db := s.db.(audit := o.shared.db.audit))
  {
    var row := GetConsentRequest(s.db, id, now).value;
    assert OnConsentAnswer(s, id, csrf, decision, now) == Finish(Log(s, ConsentRejected, row.subject, row.me, row.clientId, now), HttpError(400));
  }
}
