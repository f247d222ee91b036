/**
 What a run does not take away: a stored authorization request or consent
 lasts until it expires or until a request that brought its state, or its id
 and token, deletes it.
 */
module Survival {
  import opened Prelude
  import opened Text
  import opened Config
  import opened Handles
  import opened Tables
  import opened Handlers
  import opened Runs
  import opened Invariant
  import opened Preservation
  import opened Traces
  import opened Provenance
  import opened Serial
  import opened Overlap

  // ---- One step ---------------------------------------------------------------------------

  /** No request or consent is lost. */
  predicate KeepsRows(s: Shared, t: Shared) {
    s.db.requests.Keys <= t.db.requests.Keys && s.db.consents.Keys <= t.db.consents.Keys
  }

  /** And profiles stay as they are. */
  predicate Keeps(s: Shared, t: Shared) {
    KeepsRows(s, t) && t.db.profiles == s.db.profiles
  }

  lemma LogKeeps(s: Shared, t: Shared, kind: AuditKind, subject: string, me: string, clientId: string, now: int)
    requires Keeps(s, t)
    ensures Keeps(s, Log(t, kind, subject, me, clientId, now))
  {
  }

  lemma RequestKeeps(s: Shared, row: AuthRequest)
    ensures Keeps(s, s) && Keeps(s, s.(db := CreateAuthRequest(s.db, row).0))
  {
  }

  lemma SetupKeeps(cfg: Config, s: Shared, now: int, ch: Choice)
    ensures Keeps(s, OnSetup(cfg, s, now, ch).shared)
  {
    hide CreateAuthRequest, Keeps;
    var backend := if cfg.managedEnabled then cfg.managedBackend else cfg.dynamicBackend;
    RequestKeeps(s, AuthRequest(ch.a, backend, BackendState(ch.b, ch.c, true, None), "", "", "", "", "", "", "", None, now + cfg.requestTtl, now));
  }

  lemma AuthorizeKeeps(cfg: Config, s: Shared, q: AuthorizeQuery, fetched: Fetched, now: int)
    ensures Keeps(s, OnAuthorize(cfg, s, q, fetched, now).shared)
  {
    hide CheckAuthorize, ResolveProfile, RequestedMe;
  }

  lemma BoundKeeps(cfg: Config, s: Shared, q: AuthorizeQuery, si: SignIn, now: int, ch: Choice)
    ensures Keeps(s, OnBound(cfg, s, q, si, now, ch).shared)
  {
    hide CreateAuthRequest, Keeps, Log;
    var row := RequestRow(cfg, q, si, now, ch);
    RequestKeeps(s, row);
    LogKeeps(s, s.(db := CreateAuthRequest(s.db, row).0), AuthRequestCreated, "", si.me, q.clientId, now);
  }

  lemma BeginKeeps(cfg: Config, s: Shared, r: Request, now: int, ch: Choice)
    ensures Keeps(s, Begin(cfg, s, r, now, ch).shared)
  {
    hide CheckAuthorize, ResolveProfile, RequestedMe, EditOk, OpenSetup, GetConsentRequest, GetAccessToken, OnExchange, OnCodeProfile, OnSetup,
      OnAuthorize;
    match r
    case Setup => SetupKeeps(cfg, s, now, ch);
    case Authorize(q, fetched) => AuthorizeKeeps(cfg, s, q, fetched, now);
    case Exchange(form) => ExchangeTables(cfg, s, form, now);
    case CodeProfile(form) => CodeProfileTables(cfg, s, form, now);
    case _ =>
  }

  lemma ConsentKeeps(s: Shared, row: ConsentRequest)
    ensures Keeps(s, s.(db := CreateConsentRequest(s.db, row).0))
  {
  }

  lemma CodeKeeps(s: Shared, row: AuthorizationCode)
    ensures Keeps(s, s.(db := CreateAuthorizationCode(s.db, row).0))
  {
  }

  lemma VaultKeeps(s: Shared, vault: map<string, Payload>)
    ensures Keeps(s, s) && Keeps(s, s.(vault := vault))
  {
  }

  lemma SetupLoginKeeps(cfg: Config, s: Shared, row: AuthRequest, identity: Identity, now: int, ch: Choice)
    ensures Keeps(s, OnSetupLogin(cfg, s, row, identity, now, ch).shared)
  {
    hide Keeps, SetupPayload;
    VaultKeeps(s, s.vault[ch.a := SetupPayload(cfg, Owner(cfg.IssuerOf(row.backend), identity.subject), now)]);
  }

  lemma FoundKeeps(cfg: Config, s: Shared, q: CallbackQuery, row: AuthRequest, now: int, ch: Choice)
    ensures Keeps(s, OnFound(cfg, s, q, row, now, ch).shared)
  {
    hide LoginAllowed, CompleteAuth, OnSetupLogin, Keeps, Log, CreateConsentRequest, CreateAuthorizationCode, ConsentRow, CodeRowFromRequest;
    VaultKeeps(s, s.vault);
    match CompleteAuth(q, row.backendState, ch.login)
    case None => LogKeeps(s, s, BackendLoginRejected, "", row.me, row.clientId, now);
    case Some(login) =>
      var identity := login.identity;
      var consent, code := ConsentRow(cfg, row, identity, now, ch), CodeRowFromRequest(cfg, row, identity, now, ch);
      SetupLoginKeeps(cfg, s, row, identity, now, ch);
      LogKeeps(s, s, IdentityClaimRejected, identity.subject, row.me, row.clientId, now);
      ConsentKeeps(s, consent);
      LogKeeps(s, s.(db := CreateConsentRequest(s.db, consent).0), ConsentRequired, identity.subject, row.me, row.clientId, now);
      CodeKeeps(s, code);
      LogKeeps(s, s.(db := CreateAuthorizationCode(s.db, code).0), AuthorizationCodeIssued, identity.subject, row.me, row.clientId, now);
  }

  lemma MatchedKeeps(cfg: Config, s: Shared, row: ConsentRequest, csrf: string, decision: string, now: int, ch: Choice)
    ensures Keeps(s, OnMatched(cfg, s, row, csrf, decision, now, ch).shared)
  {
    hide Keeps, Log, CreateAuthorizationCode, CodeRowFromConsent;
    var code := CodeRowFromConsent(cfg, row, now, ch);
    VaultKeeps(s, s.vault);
    LogKeeps(s, s, ConsentDenied, row.subject, row.me, row.clientId, now);
    CodeKeeps(s, code);
    LogKeeps(s, s.(db := CreateAuthorizationCode(s.db, code).0), AuthorizationCodeIssued, row.subject, row.me, row.clientId, now);
  }

  lemma SearchingKeeps(s: Shared, q: CallbackQuery, todo: set<string>, now: int, ch: Choice)
    ensures Keeps(s, OnSearching(s, q, todo, now, ch).shared)
  {
    hide GetAuthRequest;
  }

  lemma RedeemedKeeps(cfg: Config, s: Shared, row: AuthorizationCode, form: CodeForm, now: int, ch: Choice)
    ensures Keeps(s, OnRedeemed(cfg, s, row, form, now, ch).shared)
  {
    hide Advance, Step;
  }

  lemma RevokingKeeps(cfg: Config, s: Shared, token: string, now: int)
    ensures Keeps(s, OnRevoking(cfg, s, token, now).shared)
  {
  }

  lemma EditingKeeps(cfg: Config, s: Shared, profile: ManagedProfile, credential: string, checkedAt: int, now: int)
    ensures KeepsRows(s, OnEditing(cfg, s, profile, credential, checkedAt, now).shared)
  {
    hide UpdateManagedProfile;
    ProfilesKeepRest(s.db, profile.(updatedAt := now));
  }

  lemma ProvisioningKeeps(cfg: Config, s: Shared, p: Proc, now: int)
    requires (hide *; p.Provisioning?)
    ensures KeepsRows(s, OnProvisioning(cfg, s, p, now).shared)
  {
    hide OnLooking, CreateManagedProfile, UpdateManagedProfile, SuffixedHandle, GetManagedProfileByIdentity;
    match p.stage
    case Looking => LookingKeeps(cfg, s, p, now);
    case Renaming(row) => ProfilesKeepRest(s.db, row);
    case Creating(row) => ProfilesKeepRest(s.db, row);
    case Rechecking(row) =>
    case Suffixing(row) => ProfilesKeepRest(s.db, row);
  }

  lemma LookingKeeps(cfg: Config, s: Shared, p: Proc, now: int)
    requires (hide *; p.Provisioning?)
    ensures KeepsRows(s, OnLooking(cfg, s, p, now).shared)
  {
    hide TrimSpace, NewProfile, ClaimedName, GetManagedProfileByIdentity;
  }

  /** Only the two deferred deletes take a request or a consent away, and only setup logins and edits touch profiles. */
  lemma AdvanceKeeps(cfg: Config, s: Shared, p: Proc, now: int, ch: Choice)
    requires !p.Dropping? && !p.DroppingConsent?
    ensures KeepsRows(s, Advance(cfg, s, p, now, ch).shared)
    ensures !p.Provisioning? && !p.Editing? ==> Keeps(s, Advance(cfg, s, p, now, ch).shared)
  {
    hide Begin, OnProvisioning, OnFound, OnBound, OnSearching, OnMatched, OnRedeemed, OnRevoking, OnEditing;
    match p
    case Arrived(r) => BeginKeeps(cfg, s, r, now, ch);
    case Bound(q, si) => BoundKeeps(cfg, s, q, si, now, ch);
    case Found(q, row) => FoundKeeps(cfg, s, q, row, now, ch);
    case Provisioning(_, _, _, _, _) => ProvisioningKeeps(cfg, s, p, now);
    case Searching(q, todo) => SearchingKeeps(s, q, todo, now, ch);
    case Matched(row, csrf, decision) => MatchedKeeps(cfg, s, row, csrf, decision, now, ch);
    case Redeemed(row, form) => RedeemedKeeps(cfg, s, row, form, now, ch);
    case Revoking(token) => RevokingKeeps(cfg, s, token, now);
    case Editing(profile, credential, checkedAt) => EditingKeeps(cfg, s, profile, credential, checkedAt, now);
    case _ =>
  }

  lemma StoredKept(cfg: Config, s: Shared, p: Proc, now: int, ch: Choice, x: Ticket)
    requires Stored(s.db, x) && p != Dropper(x)
    ensures Stored(Advance(cfg, s, p, now, ch).shared.db, x)
  {
    hide Advance, Step;
    if p.Dropping? || p.DroppingConsent? {
      OtherDropped(cfg, s, p, now, ch, x);
    } else {
      hide Advance;
      AdvanceKeeps(cfg, s, p, now, ch);
    }
  }

  lemma OtherDropped(cfg: Config, s: Shared, p: Proc, now: int, ch: Choice, x: Ticket)
    requires Stored(s.db, x) && p != Dropper(x) && (p.Dropping? || p.DroppingConsent?)
    ensures Stored(Advance(cfg, s, p, now, ch).shared.db, x)
  {
  }

  /** When the row expires. */
  function ExpiryOf(h: History, x: Ticket): int
    requires OnceStored(h, x)
  {
    match x
    case OfRequest(id) => h.requests[id].row.expiresAt
    case OfConsent(id) => h.consents[id].row.expiresAt
  }

  lemma PurgeSpares(db: Db, h: History, part: CleanupPart, at: int, x: Ticket)
    requires Stored(db, x) && RequestsKept(db.requests, h.requests) && ConsentsKept(db.consents, h.consents)
    requires OnceStored(h, x) && at < ExpiryOf(h, x)
    ensures Stored(Purge(db, part, at), x)
  {
  }

  lemma StoredOnce(cfg: Config, s: Sys, x: Ticket)
    requires Inv(cfg, s) && Stored(s.shared.db, x)
    ensures OnceStored(s.hist, x) && RequestsKept(s.shared.db.requests, s.hist.requests) && ConsentsKept(s.shared.db.consents, s.hist.consents)
  {
    hide Traced, CodesKept, TokensKept, ProfilesKept, CustomKept, VaultKept, SecretsDrawn, ProcsOk;
  }

  /** A row that has not expired is there after a step, unless the step is its deferred delete. */
  lemma StoredStep(cfg: Config, states: seq<Sys>, events: seq<Event>, i: nat, x: Ticket)
    requires (hide Step, Advance; IsRun(cfg, states, events)) && i < |events| && Stored(states[i].shared.db, x) && OnceStored(states[i].hist, x)
    requires states[i].now < ExpiryOf(states[i].hist, x)
    requires events[i].Resume? && events[i].pid in states[i].procs ==> states[i].procs[events[i].pid] != Dropper(x)
    ensures Stored(states[i + 1].shared.db, x)
  {
    hide Advance, Fresh, Initial, Inv, ChoiceOk, Record, Purge, Stored, OnceStored, ExpiryOf, RequestsKept, ConsentsKept;
    OneStep(cfg, states, events, i);
    match events[i]
    case Resume(pid, ch) =>
      ResumeStep(cfg, states, events, i);
      StoredKept(cfg, states[i].shared, states[i].procs[pid], states[i].now, ch, x);
    case Clean(part, at) =>
      RunKeepsInv(cfg, states, events, i);
      StoredOnce(cfg, states[i], x);
      PurgeSpares(states[i].shared.db, states[i].hist, part, at, x);
    case _ =>
  }

  // ---- Who may delete it ---------------------------------------------------------------------

  /** The request is a callback with the row's state, or an answer with the consent's id and token. */
  predicate Brings(h: History, p: Proc, x: Ticket) {
    p.Arrived?
    && match x
       case OfRequest(id) => id in h.requests && p.request.Callback? && p.request.callback.state == h.requests[id].row.backendState.state
       case OfConsent(id) =>
         id in h.consents && p.request.ConsentAnswer? && p.request.id == id && p.request.csrf == h.consents[id].row.csrfToken
  }

  lemma HoldsFrom(cfg: Config, s: Shared, p: Proc, now: int, ch: Choice, x: Ticket)
    requires (hide *; var n := Advance(cfg, s, p, now, ch).next; n.Some? && Holds(n.value, x) && !Holds(p, x))
    ensures LooksUp(s.db, p, now, ch, x)
  {
    hide *;
    var n := Advance(cfg, s, p, now, ch).next.value;
    if n.Found? || n.Matched? {
      hide Advance;
      ComesToHold(cfg, s, p, now, ch, x);
    } else {
      HeldBefore(cfg, s, p, now, ch, x);
    }
  }

  lemma HeldBefore(cfg: Config, s: Shared, p: Proc, now: int, ch: Choice, x: Ticket)
    requires (hide *; var n := Advance(cfg, s, p, now, ch).next; n.Some? && Holds(n.value, x) && !n.value.Found? && !n.value.Matched?)
    ensures Holds(p, x)
  {
    hide Begin, OnFound, OnProvisioning;
    match p
    case Arrived(r) => BeginHoldsNew(cfg, s, r, now, ch, x);
    case Found(q, row) => FoundHoldsOn(cfg, s, q, row, now, ch);
    case Provisioning(_, _, _, _, _) => ProvisioningHoldsOn(cfg, s, p, now);
    case _ =>
  }

  lemma BeginHoldsNew(cfg: Config, s: Shared, r: Request, now: int, ch: Choice, x: Ticket)
    ensures (hide *; var n := Begin(cfg, s, r, now, ch).next; n.Some? && Holds(n.value, x) ==> n.value.Found? || n.value.Matched?)
  {
    hide CheckAuthorize, ResolveProfile, RequestedMe, PresentationOk, EditOk, OpenSetup, ConsumeAuthorizationCode, GetConsentRequest,
      GetAccessToken, CreateAuthRequest;
  }

  lemma FoundHoldsOn(cfg: Config, s: Shared, q: CallbackQuery, row: AuthRequest, now: int, ch: Choice)
    ensures (hide *; var n := OnFound(cfg, s, q, row, now, ch).next;
            n.Some? && (n.value == Dropping(row.id) || (n.value.Provisioning? && n.value.requestId == row.id)))
  {
    hide LoginAllowed, CompleteAuth, SetupPayload, CreateConsentRequest, CreateAuthorizationCode;
  }

  lemma ProvisioningHoldsOn(cfg: Config, s: Shared, p: Proc, now: int)
    requires (hide *; p.Provisioning?)
    ensures var n := OnProvisioning(cfg, s, p, now).next;
            n.Some? && (n.value == Dropping(p.requestId) || (n.value.Provisioning? && n.value.requestId == p.requestId))
  {
    hide TrimSpace, ClaimedName, NewProfile, CreateManagedProfile, UpdateManagedProfile, SuffixedHandle, GetManagedProfileByIdentity;
  }

  lemma BringsLater(h: History, g: History, p: Proc, x: Ticket)
    requires Later(h, g) && Brings(h, p, x)
    ensures Brings(g, p, x)
  {
  }

  /** Whoever has a row in hand brought what it is found by. */
  lemma {:induction false} HolderBrought(cfg: Config, states: seq<Sys>, events: seq<Event>, j: nat, pid: nat, x: Ticket) returns (i: nat)
    requires (hide Step, Advance; IsRun(cfg, states, events)) && j < |states| && InHand(states[j].procs, pid, x)
    ensures i < j && Moves(states, events, i, pid) && Brings(states[j].hist, states[i].procs[pid], x)
  {
    hide Advance, IsRun, Fresh, Inv, Holds, Brings, LooksUp, Later;
    assert !states[j].procs[pid].Arrived? by {
      ArrivedHoldsNothing(states[j].procs[pid], x);
    }
    var k, ch, p := ProcSource(cfg, states, events, j, pid);
    if Holds(p, x) {
      i := HolderBrought(cfg, states, events, k, pid, x);
    } else {
      HoldsFrom(cfg, states[k].shared, p, states[k].now, ch, x);
      RunKeepsInv(cfg, states, events, k);
      i := LookerBrought(cfg, states, events, k, pid, ch, p, x);
    }
    RunGrows(cfg, states, events, k, j);
    BringsLater(states[k].hist, states[j].hist, states[i].procs[pid], x);
  }

  lemma ArrivedHoldsNothing(p: Proc, x: Ticket)
    requires Holds(p, x)
    ensures !p.Arrived?
  {
  }

  lemma LookerBrought(cfg: Config, states: seq<Sys>, events: seq<Event>, k: nat, pid: nat, ch: Choice, p: Proc, x: Ticket) returns (i: nat)
    requires (hide Step, Advance; IsRun(cfg, states, events)) && StepOf(cfg, states, events, k, pid, ch, p) && LooksUp(states[k].shared.db, p, states[k].now, ch, x)
    requires Inv(cfg, states[k])
    ensures i <= k && Moves(states, events, i, pid) && Brings(states[k].hist, states[i].procs[pid], x)
  {
    hide IsRun, Inv, GetAuthRequest, GetConsentRequest, Fresh;
    match x
    case OfRequest(id) =>
      FoundRow(cfg, states[k], ch.backend, p.callback.state);
      var backend;
      i, backend := CallbackAsked(cfg, states, events, k, pid);
    case OfConsent(id) =>
      ConsentRowKnown(cfg, states[k], p.request.id);
      i := k;
  }
}
