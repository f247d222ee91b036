/**
 Where a token comes from, told as the requests a run answered: whatever was
 interleaved, an exchange that grants a token was preceded by an approval (if
 consent is required), a provider login and an `/authorize` request, each
 carrying on exactly what the one before it had fixed.
 */
module Provenance {
  import opened Prelude
  import opened Library
  import opened Config
  import opened Discovery
  import opened Checks
  import opened Tables
  import opened Handlers
  import opened Runs
  import opened Invariant
  import opened Preservation
  import opened Traces

  // ---- Which step does what ------------------------------------------------------------

  lemma GrantShape(cfg: Config, s: Shared, p: Proc, now: int, ch: Choice)
    requires (hide *; var r := Advance(cfg, s, p, now, ch).reply; r.Some? && r.value.TokenGranted?)
    ensures p.Redeemed? && Advance(cfg, s, p, now, ch).reply == Some(TokenGranted(ch.a, p.code.scope, p.code.me, p.code.profile))
    ensures var n := Advance(cfg, s, p, now, ch).note;
            n.TokenStored? && n.codeHash == p.code.codeHash && n.form == p.form && n.token.tokenHash == HashToken(cfg.lib, ch.a)
  {
    hide CheckAuthorize, ResolveProfile, RequestedMe, LoginAllowed, PresentationOk, EditOk, OpenSetup, ConsumeAuthorizationCode, CompleteAuth,
      NewProfile, ClaimedName, CreateManagedProfile;
  }

  lemma RedeemedShape(cfg: Config, s: Shared, p: Proc, now: int, ch: Choice)
    requires (hide *; var n := Advance(cfg, s, p, now, ch).next; n.Some? && n.value.Redeemed?)
    ensures var q := Advance(cfg, s, p, now, ch).next.value;
            && p == Arrived(Exchange(q.form)) && PresentationOk(cfg, q.code, q.form, true)
            && ConsumeAuthorizationCode(s.db, HashToken(cfg.lib, q.form.code), now).1 == Ok(q.code)
  {
    hide CheckAuthorize, ResolveProfile, RequestedMe, LoginAllowed, PresentationOk, EditOk, OpenSetup, ConsumeAuthorizationCode, CompleteAuth,
      NewProfile, ClaimedName, CreateManagedProfile;
  }

  lemma CodeStoredShape(cfg: Config, s: Shared, p: Proc, now: int, ch: Choice)
    requires (hide *; Advance(cfg, s, p, now, ch).note.CodeStored?)
    ensures var o := Advance(cfg, s, p, now, ch);
            && o.note.code.codeHash == HashToken(cfg.lib, ch.a)
            && match o.note.cause {
                 case Login(id, login) =>
                   && p.Found? && p.row.id == id && !cfg.consentRequired
                   && CompleteAuth(p.callback, p.row.backendState, ch.login) == Some(login)
                   && o.reply == Some(ToClient(p.row.redirectUri, ch.a, p.row.clientState, cfg.issuer))
                 case Approval(id, csrf) =>
                   && p.Matched? && p.consent.id == id && p.csrf == csrf && p.decision == "approve"
                   && o.reply == Some(ToClient(p.consent.redirectUri, ch.a, p.consent.clientState, cfg.issuer))
               }
  {
    hide CheckAuthorize, ResolveProfile, RequestedMe, LoginAllowed, PresentationOk, EditOk, OpenSetup, ConsumeAuthorizationCode, CompleteAuth,
      NewProfile, ClaimedName, CreateManagedProfile;
  }

  lemma ConsentStoredShape(cfg: Config, s: Shared, p: Proc, now: int, ch: Choice)
    requires (hide *; Advance(cfg, s, p, now, ch).note.ConsentStored?)
    ensures var o := Advance(cfg, s, p, now, ch);
            && p.Found? && o.note.requestId == p.row.id && CompleteAuth(p.callback, p.row.backendState, ch.login) == Some(o.note.login)
            && o.note.consent.id == ch.a && o.note.consent.csrfToken == ch.b && o.reply == Some(ToConsent(ch.a))
  {
    hide CheckAuthorize, ResolveProfile, RequestedMe, LoginAllowed, PresentationOk, EditOk, OpenSetup, ConsumeAuthorizationCode, CompleteAuth,
      NewProfile, ClaimedName, CreateManagedProfile;
  }

  lemma RequestStoredShape(cfg: Config, s: Shared, p: Proc, now: int, ch: Choice)
    requires (hide *; var n := Advance(cfg, s, p, now, ch).note; n.RequestStored? && n.query.Some?)
    ensures var o := Advance(cfg, s, p, now, ch);
            && p.Bound? && o.note.query == Some(p.query) && o.note.source == p.signIn.source
            && o.note.row == RequestRow(cfg, p.query, p.signIn, now, ch).(expiresAt := o.note.row.expiresAt, createdAt := o.note.row.createdAt)
            && o.reply == Some(ToProvider(p.signIn.backend, ch.b, ch.c))
  {
    hide CheckAuthorize, ResolveProfile, RequestedMe, LoginAllowed, PresentationOk, EditOk, OpenSetup, ConsumeAuthorizationCode, CompleteAuth,
      NewProfile, ClaimedName, CreateManagedProfile;
  }

  lemma FoundShape(cfg: Config, s: Shared, p: Proc, now: int, ch: Choice)
    requires (hide *; var n := Advance(cfg, s, p, now, ch).next; n.Some? && (n.value.Found? || n.value.Searching?))
    ensures var q := Advance(cfg, s, p, now, ch).next.value.callback;
            (p.Searching? && p.callback == q) || (p.Arrived? && p.request.Callback? && p.request.callback == q)
  {
    hide CheckAuthorize, ResolveProfile, RequestedMe, LoginAllowed, PresentationOk, EditOk, OpenSetup, ConsumeAuthorizationCode, CompleteAuth,
      NewProfile, ClaimedName, CreateManagedProfile;
  }

  lemma BoundShape(cfg: Config, s: Shared, p: Proc, now: int, ch: Choice)
    requires (hide *; var n := Advance(cfg, s, p, now, ch).next; n.Some? && n.value.Bound?)
    ensures p.Arrived? && p.request.Authorize? && p.request.query == Advance(cfg, s, p, now, ch).next.value.query
    ensures Advance(cfg, s, p, now, ch) == OnAuthorize(cfg, s, p.request.query, p.request.fetched, now)
  {
    hide CheckAuthorize, ResolveProfile, RequestedMe, LoginAllowed, PresentationOk, EditOk, OpenSetup, ConsumeAuthorizationCode, CompleteAuth,
      NewProfile, ClaimedName, CreateManagedProfile;
  }

  /** A request that goes on passed its checks, and signs in as the profile resolved then. */
  lemma AuthorizeAdmits(cfg: Config, s: Shared, q: AuthorizeQuery, fetched: Fetched, now: int)
    requires (hide *; OnAuthorize(cfg, s, q, fetched, now).next.Some?)
    ensures OnAuthorize(cfg, s, q, fetched, now).next.value.Bound?
    ensures Admitted(cfg, s.db, q, fetched, OnAuthorize(cfg, s, q, fetched, now).next.value.signIn)
  {
    hide CheckAuthorize, ResolveProfile, RequestedMe, Admitted;
    CheckedQueryOk(cfg, s.db, q, fetched);
    CheckedIsAdmitted(cfg, s.db, q, fetched, OnAuthorize(cfg, s, q, fetched, now).next.value.signIn);
  }

  lemma MatchedShape(cfg: Config, s: Shared, p: Proc, now: int, ch: Choice)
    requires (hide *; var n := Advance(cfg, s, p, now, ch).next; n.Some? && n.value.Matched?)
    ensures var q := Advance(cfg, s, p, now, ch).next.value;
            && p.Arrived? && p.request.ConsentAnswer? && p.request.csrf == q.csrf && p.request.decision == q.decision
            && GetConsentRequest(s.db, p.request.id, now) == Ok(q.consent)
  {
    hide CheckAuthorize, ResolveProfile, RequestedMe, LoginAllowed, PresentationOk, EditOk, OpenSetup, GetConsentRequest, ConsumeAuthorizationCode,
      CompleteAuth, NewProfile, ClaimedName, CreateManagedProfile;
  }

  // ---- The trail of one code ---------------------------------------------------------------

  /** A step answered `reply`. */
  ghost predicate Answered(cfg: Config, states: seq<Sys>, i: nat, p: Proc, ch: Choice, reply: Reply)
    requires (hide *; i < |states|)
  {
    OutcomeAt(cfg, states, i, p, ch).reply == Some(reply)
  }

  /** The `/authorize` request `pid`: its first step, the one that sent the browser to the provider, and the secrets drawn there. */
  datatype Sending = Sending(pid: nat, asked: nat, sent: nat, draw: Choice, query: AuthorizeQuery, fetched: Fetched, signIn: SignIn)

  /** The callback request `pid`, and the step that took the provider's word for an identity. */
  datatype Arrival = Arrival(pid: nat, asked: nat, taken: nat, draw: Choice, backend: string, callback: CallbackQuery, row: AuthRequest, login: IdToken)

  /** The consent request `pid`, and the step that approved it. */
  datatype Approving = Approving(pid: nat, asked: nat, approved: nat, draw: Choice, consent: ConsentRequest, csrf: string)

  /** The steps behind a code. */
  datatype Trail = Trail(sending: Sending, arrival: Arrival, approving: Option<Approving>)
  {
    /** The secret sent out as the code. */
    function Code(): string {
      if approving.Some? then approving.value.draw.a else arrival.draw.a
    }

    function End(): nat {
      if approving.Some? then approving.value.approved else arrival.taken
    }
  }

  ghost predicate Began(cfg: Config, states: seq<Sys>, events: seq<Event>, i: nat, pid: nat, r: Request) {
    exists ch :: StepOf(cfg, states, events, i, pid, ch, Arrived(r))
  }

  /** The declared redirect URIs count only with client discovery on. */
  function Declared(cfg: Config, fetched: Fetched): Option<seq<string>> {
    if cfg.clientDiscovery then fetched.declared else None
  }

  /** The query passes its checks, field by field, and the profile is the one that the tables and the fetched page give for the requested URL. */
  ghost predicate Admitted(cfg: Config, db: Db, q: AuthorizeQuery, fetched: Fetched, si: SignIn) {
    hide *;
    && QueryFits(cfg, q, Declared(cfg, fetched))
    && RequestedMe(cfg, q).Some? && AsksFor(cfg.lib, q.me, cfg.allowHttp, RequestedMe(cfg, q).value) 
    && ResolveProfile(cfg, db, RequestedMe(cfg, q).value, fetched.page) == Some(si)
  }

  lemma CheckedIsAdmitted(cfg: Config, db: Db, q: AuthorizeQuery, fetched: Fetched, si: SignIn)
    requires (hide *; CheckAuthorize(cfg, db, q, fetched) == None) && RequestedMe(cfg, q).Some?
    requires ResolveProfile(cfg, db, RequestedMe(cfg, q).value, fetched.page) == Some(si)
    ensures Admitted(cfg, db, q, fetched, si)
  {
    hide RequestedMe, CheckAuthorize, ResolveProfile, QueryFits, AsksFor;
    QueryExactly(cfg, db, q, fetched);
    AskedExactly(cfg, q, RequestedMe(cfg, q).value);
  }

  /**
   An `/authorize` request passed its checks, the redirect URI and the profile it resolved to among
   them, and the browser went to the provider with a new state and nonce.
   */
  ghost predicate Sent(cfg: Config, states: seq<Sys>, events: seq<Event>, s: Sending) {
    hide Step, Advance, Admitted, QueryOk, SignInOk, MaySignIn, LoginAllowed;
    && s.asked < s.sent
    && Began(cfg, states, events, s.asked, s.pid, Authorize(s.query, s.fetched))
    && StepOf(cfg, states, events, s.sent, s.pid, s.draw, Bound(s.query, s.signIn))
    && Answered(cfg, states, s.sent, Bound(s.query, s.signIn), s.draw, ToProvider(s.signIn.backend, s.draw.b, s.draw.c))
    && QueryOk(cfg, s.query) && SignInOk(cfg, states[s.sent].hist.owners, s.query, s.signIn)
    && Admitted(cfg, states[s.asked].shared.db, s.query, s.fetched, s.signIn)
  }

  /** The stored request: everything in it comes from the query and the profile it resolved to. */
  ghost predicate Remembers(cfg: Config, states: seq<Sys>, s: Sending, row: AuthRequest)
    requires s.sent < |states|
  {
    row == RequestRow(cfg, s.query, s.signIn, states[s.sent].now, s.draw).(expiresAt := row.expiresAt, createdAt := row.createdAt)
  }

  /** The provider's token answers that very state and nonce, for an identity the profile admits. */
  ghost predicate Taken(cfg: Config, states: seq<Sys>, events: seq<Event>, s: Sending, l: Arrival) {
    hide *;
    && s.sent < |states| && Remembers(cfg, states, s, l.row)
    && l.asked < l.taken && s.sent < l.taken
    && Began(cfg, states, events, l.asked, l.pid, Callback(l.backend, l.callback))
    && StepOf(cfg, states, events, l.taken, l.pid, l.draw, Found(l.callback, l.row))
    && l.callback.state == s.draw.b && l.callback.error == "" && l.callback.code != ""
    && l.draw.login == Some(l.login) && l.login.nonce == s.draw.c
    && LoginAllowed(cfg, l.row, l.login.identity) && MaySignIn(cfg, l.row, l.login.identity)
  }

  /** The person was shown the consent page's own id and anti-forgery token, and the approval brought both back. */
  ghost predicate Approved(cfg: Config, states: seq<Sys>, events: seq<Event>, l: Arrival, a: Approving) {
    hide *;
    && l.taken < |states| && l.taken < a.approved && a.asked < a.approved
    && Answered(cfg, states, l.taken, Found(l.callback, l.row), l.draw, ToConsent(l.draw.a))
    && a.consent.id == l.draw.a && a.csrf == l.draw.b
    && Began(cfg, states, events, a.asked, a.pid, ConsentAnswer(a.consent.id, a.csrf, "approve"))
    && StepOf(cfg, states, events, a.approved, a.pid, a.draw, Matched(a.consent, a.csrf, "approve"))
  }

  ghost predicate TrailOk(cfg: Config, states: seq<Sys>, events: seq<Event>, t: Trail) {
    hide Step, Advance, Admitted, QueryOk, SignInOk, MaySignIn, LoginAllowed;
    && Sent(cfg, states, events, t.sending)
    && Taken(cfg, states, events, t.sending, t.arrival)
    && (cfg.consentRequired <==> t.approving.Some?)
    && (t.approving.Some? ==> Approved(cfg, states, events, t.arrival, t.approving.value))
    && t.End() < |events| && events[t.End()].Resume?
    && ReplyOf(cfg, states[t.End()], events[t.End()]) == Some(ToClient(t.sending.query.redirectUri, t.Code(), t.sending.query.state, cfg.issuer))
  }

  /** What a code carries is what its trail fixed. */
  ghost predicate CarriesOn(cfg: Config, t: Trail, code: AuthorizationCode) {
    var q, si := t.sending.query, t.sending.signIn;
    && code.codeHash == HashToken(cfg.lib, t.Code())
    && code.me == si.me && code.clientId == q.clientId && code.redirectUri == q.redirectUri
    && code.scope == q.scope && code.challenge == q.challenge && code.challengeMethod == q.challengeMethod
    && code.profile == SignedInProfile(t.arrival.row, t.arrival.login.identity)
  }

  lemma RequestKnown(cfg: Config, s: Sys, id: string)
    requires (hide *; Inv(cfg, s)) && id in s.hist.requests
    ensures RequestOk(cfg, s.hist.owners, id, s.hist.requests[id])
  {
    hide RequestOk, ConsentsTraced, CodesTraced, TokensTraced, FatesOk, EditsTraced, Kept, SecretsDrawn, ProcsOk;
  }

  /** The request behind a stored authorization request. */
  lemma RequestTrail(cfg: Config, states: seq<Sys>, events: seq<Event>, j: nat, id: string) returns (s: Sending)
    requires (hide *; IsRun(cfg, states, events)) && j < |states|
    requires id in states[j].hist.requests && states[j].hist.requests[id].query.Some?
    ensures s.sent < j && Sent(cfg, states, events, s) && Remembers(cfg, states, s, states[j].hist.requests[id].row)
    ensures states[s.sent].now == states[j].hist.requests[id].at
  {
    hide Advance, IsRun, QueryOk, SignInOk, Inv, Ready, Fresh, Admitted, OnAuthorize;
    var o := states[j].hist.requests[id];
    RunKeepsInv(cfg, states, events, j);
    RequestKnown(cfg, states[j], id);
    var i, pid, ch, p := NoteSource(cfg, states, events, j, RequestStored(o.row, o.query, o.source), o.at);
    RequestStoredShape(cfg, states[i].shared, p, states[i].now, ch);
    StepInv(cfg, states, events, i, pid, ch, p);
    var k, ch', q := ProcSource(cfg, states, events, i, pid);
    BoundShape(cfg, states[k].shared, q, states[k].now, ch');
    AuthorizeAdmits(cfg, states[k].shared, p.query, q.request.fetched, states[k].now);
    s := Sending(pid, k, i, ch, p.query, q.request.fetched, p.signIn);
  }

  /** The callback request behind one that found its stored request. */
  lemma {:induction false} CallbackAsked(cfg: Config, states: seq<Sys>, events: seq<Event>, j: nat, pid: nat) returns (i: nat, backend: string)
    requires (hide *; IsRun(cfg, states, events)) && j < |states| && pid in states[j].procs
    requires states[j].procs[pid].Found? || states[j].procs[pid].Searching?
    ensures i < j && Began(cfg, states, events, i, pid, Callback(backend, states[j].procs[pid].callback))
  {
    hide Advance, IsRun, Fresh;
    var k, ch, p := ProcSource(cfg, states, events, j, pid);
    FoundShape(cfg, states[k].shared, p, states[k].now, ch);
    if p.Searching? {
      i, backend := CallbackAsked(cfg, states, events, k, pid);
    } else {
      i, backend := k, p.request.backend;
    }
  }

  /** The login behind a consent or a code, given the step that took it. */
  lemma LoginTrail(cfg: Config, states: seq<Sys>, events: seq<Event>, j: nat, pid: nat, ch: Choice, q: CallbackQuery, row: AuthRequest, login: IdToken)
    returns (s: Sending, l: Arrival)
    requires (hide Step, Advance, Admitted, QueryOk, SignInOk, MaySignIn, LoginAllowed; IsRun(cfg, states, events)) && StepOf(cfg, states, events, j, pid, ch, Found(q, row))
    requires CompleteAuth(q, row.backendState, ch.login) == Some(login) && row.id in states[j].hist.requests
    requires LoginOk(cfg, states[j].hist.requests[row.id], login)
    ensures l.taken == j && l.pid == pid && l.draw == ch && l.callback == q && l.row == row && l.login == login
    ensures Sent(cfg, states, events, s) && Taken(cfg, states, events, s, l)
  {
    hide Advance, IsRun, Fresh, Inv, Ready, LoginAllowed, MaySignIn, Sent, Began;
    LoginExactly(cfg, row, login.identity);
    StepInv(cfg, states, events, j, pid, ch, Found(q, row));
    RequestKnown(cfg, states[j], row.id);
    s := RequestTrail(cfg, states, events, j, row.id);
    var i, backend := CallbackAsked(cfg, states, events, j, pid);
    l := Arrival(pid, i, j, ch, backend, q, row, login);
  }

  /** The login behind a stored consent, and that the consent carries on what the query fixed. */
  lemma ConsentOriginTrail(cfg: Config, states: seq<Sys>, events: seq<Event>, j: nat, id: string) returns (s: Sending, l: Arrival)
    requires (hide *; IsRun(cfg, states, events)) && j < |states| && id in states[j].hist.consents
    ensures Sent(cfg, states, events, s) && Taken(cfg, states, events, s, l) && l.taken < j && cfg.consentRequired
    ensures Answered(cfg, states, l.taken, Found(l.callback, l.row), l.draw, ToConsent(id)) && id == l.draw.a
    ensures var consent, q, si := states[j].hist.consents[id].row, s.query, s.signIn;
            && consent.id == id && consent.csrfToken == l.draw.b
            && consent.me == si.me && consent.clientId == q.clientId && consent.redirectUri == q.redirectUri && consent.scope == q.scope
            && consent.clientState == q.state && consent.challenge == q.challenge && consent.challengeMethod == q.challengeMethod
            && consent.profile == SignedInProfile(l.row, l.login.identity)
  {
    hide Advance, IsRun, Fresh, Inv, Ready, LoginAllowed, MaySignIn, Sent, Began, CompleteAuth;
    RunKeepsInv(cfg, states, events, j);
    ConsentKnown(cfg, states[j], id);
    var o := states[j].hist.consents[id];
    var b, pid', ch', p := NoteSource(cfg, states, events, j, ConsentStored(o.row, o.requestId, o.login), o.at);
    ConsentStoredShape(cfg, states[b].shared, p, states[b].now, ch');
    StepNoteOk(cfg, states, events, b, pid', ch', p);
    s, l := LoginTrail(cfg, states, events, b, pid', ch', p.callback, p.row, o.login);
    StepInv(cfg, states, events, b, pid', ch', p);
  }

  lemma ConsentKnown(cfg: Config, s: Sys, id: string)
    requires (hide *; Inv(cfg, s)) && id in s.hist.consents
    ensures ConsentOk(cfg, s.hist.requests, id, s.hist.consents[id])
  {
    hide ConsentOk, RequestsTraced, CodesTraced, TokensTraced, FatesOk, EditsTraced, Kept, SecretsDrawn, ProcsOk;
  }

  /** The approval behind a code issued for a consent, and the login behind the consent. */
  lemma ConsentTrail(cfg: Config, states: seq<Sys>, events: seq<Event>, i: nat, pid: nat, ch: Choice, consent: ConsentRequest, csrf: string)
    returns (s: Sending, l: Arrival, a: Approving)
    requires IsRun(cfg, states, events) && StepOf(cfg, states, events, i, pid, ch, Matched(consent, csrf, "approve"))
    ensures a == Approving(pid, a.asked, i, ch, consent, csrf)
    ensures Sent(cfg, states, events, s) && Taken(cfg, states, events, s, l) && Approved(cfg, states, events, l, a) && cfg.consentRequired
    ensures var q, si := s.query, s.signIn;
            && consent.me == si.me && consent.clientId == q.clientId && consent.redirectUri == q.redirectUri && consent.scope == q.scope
            && consent.clientState == q.state && consent.challenge == q.challenge && consent.challengeMethod == q.challengeMethod
            && consent.profile == SignedInProfile(l.row, l.login.identity)
  {
    hide Advance, IsRun, Fresh, Inv, Ready, LoginAllowed, MaySignIn, Sent, Began, CompleteAuth, Taken;
    StepInv(cfg, states, events, i, pid, ch, Matched(consent, csrf, "approve"));
    s, l := ConsentOriginTrail(cfg, states, events, i, consent.id);
    var k := ConsentAsked(cfg, states, events, i, pid, ch, consent, csrf);
    a := Approving(pid, k, i, ch, consent, csrf);
  }

  lemma ConsentAsked(cfg: Config, states: seq<Sys>, events: seq<Event>, i: nat, pid: nat, ch: Choice, consent: ConsentRequest, csrf: string)
    returns (k: nat)
    requires IsRun(cfg, states, events) && StepOf(cfg, states, events, i, pid, ch, Matched(consent, csrf, "approve"))
    ensures k < i && Began(cfg, states, events, k, pid, ConsentAnswer(consent.id, csrf, "approve"))
  {
    hide Advance, IsRun, Fresh, Inv, Ready, GetConsentRequest;
    var ch', q;
    k, ch', q := ProcSource(cfg, states, events, i, pid);
    MatchedShape(cfg, states[k].shared, q, states[k].now, ch');
    StepInv(cfg, states, events, k, pid, ch', q);
    ConsentRowKnown(cfg, states[k], q.request.id);
  }

  /** The whole trail behind a code. */
  lemma CodeTrail(cfg: Config, states: seq<Sys>, events: seq<Event>, j: nat, hash: string) returns (t: Trail)
    requires (hide *; IsRun(cfg, states, events)) && j < |states| && hash in states[j].hist.codes
    ensures t.End() < j && TrailOk(cfg, states, events, t) && CarriesOn(cfg, t, states[j].hist.codes[hash].row)
  {
    hide Advance, IsRun, Fresh, Inv, Ready, LoginAllowed, MaySignIn, Sent, Began, Taken, Approved, CompleteAuth, LoginOk;
    RunKeepsInv(cfg, states, events, j);
    CodeKnown(cfg, states[j], hash);
    var o := states[j].hist.codes[hash];
    var i, pid, ch, p := NoteSource(cfg, states, events, j, CodeStored(o.row, o.cause), o.at);
    CodeStoredShape(cfg, states[i].shared, p, states[i].now, ch);
    StepNoteOk(cfg, states, events, i, pid, ch, p);
    StepInv(cfg, states, events, i, pid, ch, p);
    ReplyAt(cfg, states, events, i, pid, ch, p);
    match o.cause
    case Login(id, login) =>
      var s, l := LoginTrail(cfg, states, events, i, pid, ch, p.callback, p.row, login);
      t := Trail(s, l, None);
      LoginFixes(cfg, states, events, s, l);
    case Approval(id, csrf) =>
      var s, l, a := ConsentTrail(cfg, states, events, i, pid, ch, p.consent, csrf);
      t := Trail(s, l, Some(a));
  }

  lemma CodeKnown(cfg: Config, s: Sys, hash: string)
    requires (hide *; Inv(cfg, s)) && hash in s.hist.codes
    ensures CodeOk(cfg, s.hist.requests, s.hist.consents, hash, s.hist.codes[hash])
  {
    hide CodeOk, RequestsTraced, ConsentsTraced, TokensTraced, FatesOk, EditsTraced, Kept, SecretsDrawn, ProcsOk;
  }

  lemma ReplyAt(cfg: Config, states: seq<Sys>, events: seq<Event>, i: nat, pid: nat, ch: Choice, p: Proc)
    requires (hide Step, Advance, Admitted, QueryOk, SignInOk, MaySignIn, LoginAllowed; IsRun(cfg, states, events)) && StepOf(cfg, states, events, i, pid, ch, p)
    ensures Enabled(cfg, states[i], events[i]) && ReplyOf(cfg, states[i], events[i]) == OutcomeAt(cfg, states, i, p, ch).reply
  {
    hide Advance, Fresh, IsRun, Inv, ChoiceOk, Step;
    OneStep(cfg, states, events, i);
  }

  /** What the stored request fixes. */
  lemma LoginFixes(cfg: Config, states: seq<Sys>, events: seq<Event>, s: Sending, l: Arrival)
    requires Taken(cfg, states, events, s, l)
    ensures var q, si, row := s.query, s.signIn, l.row;
            && row.id == s.draw.a && row.me == si.me && row.clientId == q.clientId && row.redirectUri == q.redirectUri && row.scope == q.scope
            && row.clientState == q.state && row.challenge == q.challenge && row.challengeMethod == q.challengeMethod
            && row.backend == si.backend && row.backendState.owner == si.owner && row.profile == Some(si.profile)
  {
    hide Advance, Fresh, Began, StepOf, LoginAllowed, MaySignIn;
  }

  // ---- The trail of one token ------------------------------------------------------------------

  /**
   Every token granted at `/token`, in every run: some earlier step took this code's only
   presentation, by the client and redirect URI of the original query and with a verifier for its
   challenge; before it ran the trail of that code; and scope and profile URL are the original ones.
   */
  lemma TokenProvenance(cfg: Config, states: seq<Sys>, events: seq<Event>, j: nat)
    returns (t: Trail, presented: nat, form: CodeForm)
    requires (hide Step, Advance, Admitted, QueryOk, SignInOk, MaySignIn, LoginAllowed; IsRun(cfg, states, events)) && j < |events| && Enabled(cfg, states[j], events[j])
    requires var r := ReplyOf(cfg, states[j], events[j]); r.Some? && r.value.TokenGranted?
    ensures TrailOk(cfg, states, events, t) && t.End() < presented < j
    ensures events[j].Resume? && Began(cfg, states, events, presented, events[j].pid, Exchange(form))
    ensures HashToken(cfg.lib, form.code) == HashToken(cfg.lib, t.Code())
    ensures var q, r := t.sending.query, ReplyOf(cfg, states[j], events[j]).value;
            && form.clientId == q.clientId && form.redirectUri == q.redirectUri
            && (cfg.requirePkce ==> q.challenge != "")
            && (q.challenge != "" ==> form.verifier != "" && cfg.lib.digest(form.verifier) == q.challenge)
            && r.scope == q.scope && r.me == t.sending.signIn.me
            && DocFits(t.arrival.row, t.arrival.login.identity, r.profile)
  {
    hide Advance, IsRun, Fresh, Inv, Ready, TrailOk, ConsumeAuthorizationCode;
    ResumeStep(cfg, states, events, j);
    var pid, ch := events[j].pid, events[j].choice;
    GrantShape(cfg, states[j].shared, states[j].procs[pid], states[j].now, ch);
    var code;
    presented, code, form := Presentation(cfg, states, events, j, pid);
    t := CodeTrail(cfg, states, events, presented, code.codeHash);
  }

  /** The request that redeemed a code, and the step it did so. */
  lemma Presentation(cfg: Config, states: seq<Sys>, events: seq<Event>, j: nat, pid: nat)
    returns (i: nat, code: AuthorizationCode, form: CodeForm)
    requires (hide *; IsRun(cfg, states, events)) && j < |states| && pid in states[j].procs && states[j].procs[pid].Redeemed?
    ensures i < j && states[j].procs[pid] == Redeemed(code, form) && Began(cfg, states, events, i, pid, Exchange(form))
    ensures PresentationOk(cfg, code, form, true) && code.codeHash == HashToken(cfg.lib, form.code)
    ensures code.codeHash in states[i].hist.codes && states[i].hist.codes[code.codeHash].row == code
  {
    hide Advance, IsRun, Fresh, Inv, ConsumeAuthorizationCode;
    var ch, p;
    i, ch, p := ProcSource(cfg, states, events, j, pid);
    code, form := states[j].procs[pid].code, states[j].procs[pid].form;
    RedeemedShape(cfg, states[i].shared, p, states[i].now, ch);
    StepInv(cfg, states, events, i, pid, ch, p);
    ConsumedCode(cfg, states[i], HashToken(cfg.lib, form.code));
  }

  /** With PKCE required, no sign-in without a challenge ever turns into a token, and every token answered a well-formed one. */
  lemma TokenNeedsPkce(cfg: Config, states: seq<Sys>, events: seq<Event>, j: nat)
    returns (t: Trail, presented: nat, form: CodeForm)
    requires (hide Step, Advance, Admitted, QueryOk, SignInOk, MaySignIn, LoginAllowed; IsRun(cfg, states, events)) && j < |events| && Enabled(cfg, states[j], events[j])
    requires var r := ReplyOf(cfg, states[j], events[j]); r.Some? && r.value.TokenGranted?
    requires cfg.requirePkce
    ensures TrailOk(cfg, states, events, t) && t.End() < presented < j
    ensures Began(cfg, states, events, presented, events[j].pid, Exchange(form))
    ensures var q := t.sending.query;
            && !LegacySignIn(q) && S256Challenge(q.challenge, q.challengeMethod)
            && form.verifier != "" && cfg.lib.digest(form.verifier) == q.challenge
  {
    hide Advance, IsRun, Fresh, Inv, S256Challenge, WellFormedChallenge, Taken, Approved, Began, SignInOk, ReplyOf, Enabled;
    t, presented, form := TokenProvenance(cfg, states, events, j);
  }

  /**
   The person the provider vouched for is entitled to the profile URL in the token, which is the one
   asked for: as `db` and the page fetched then have it, a configured profile admits the identity,
   the stored profile of the URL's handle is theirs, or the page at the URL binds it to them.
   */
  ghost predicate Entitled(cfg: Config, db: Db, t: Trail, me: string) {
    hide *;
    var q, si, identity := t.sending.query, t.sending.signIn, t.arrival.login.identity;
    && AsksFor(cfg.lib, q.me, cfg.allowHttp, me)
    && match si.source {
         case Static =>
           exists p :: p in cfg.profiles && p.me == me && Selected(p, identity)
                       && (!cfg.managedEnabled || HandleInUrl(cfg, me) == "" ==> si.backend == p.backend && ConfiguredDoc(p, si.profile))
         case Managed(handle) =>
           && me == ManagedProfileUrl(cfg, handle) && si.backend == cfg.managedBackend
           && exists k :: k in db.profiles && db.profiles[k].handle == handle
                          && db.profiles[k].Holder() == Owner(IssuerAt(cfg, cfg.managedBackend), identity.subject)
                          && si.profile == StoredDoc(me, db.profiles[k])
         case Page =>
           && si.backend == cfg.dynamicBackend
           && DiscoverIdentity(cfg.lib, me, cfg.allowHttp, cfg.metadataName, cfg.publicUrl, IssuerAt(cfg, cfg.dynamicBackend), t.sending.fetched.page)
              == Some(Binding(me, IssuerAt(cfg, cfg.dynamicBackend), identity.subject))
           && PageSays(cfg, me, t.sending.fetched.page, identity.subject)
       }
  }

  /** The fetched page links to this bridge and names the subject at the bridge's own issuer. */
  ghost predicate PageSays(cfg: Config, me: string, page: Option<string>, subject: string) {
    && page.Some? && cfg.lib.parse(me).Some?
    && var given := cfg.lib.parse(me).value;
    PageBinds(cfg.lib, page.value, given.(fragment := "", path := if given.path == "" then "/" else given.path), cfg.allowHttp, cfg.metadataName,
              cfg.publicUrl, IssuerAt(cfg, cfg.dynamicBackend), subject)
  }

  lemma TrailEntitles(cfg: Config, states: seq<Sys>, events: seq<Event>, t: Trail)
    requires (hide *; TrailOk(cfg, states, events, t)) && CanonicalLaw(cfg.lib)
    ensures t.sending.asked < |states| && Entitled(cfg, states[t.sending.asked].shared.db, t, t.sending.signIn.me)
  {
    hide Advance, Fresh, StepOf, Answered, Approved, QueryOk, SignInOk, LoginAllowed, Entitled, ReplyOf, CanonicalLaw, Remembers, Admitted;
    LoginFixes(cfg, states, events, t.sending, t.arrival);
    AskedInRun(cfg, states, events, t.sending);
    AllowedIsEntitled(cfg, states[t.sending.asked].shared.db, states[t.sending.sent].hist.owners, t);
  }

  lemma AskedInRun(cfg: Config, states: seq<Sys>, events: seq<Event>, s: Sending)
    requires Began(cfg, states, events, s.asked, s.pid, Authorize(s.query, s.fetched))
    ensures s.asked < |states|
  {
    hide Fresh;
  }

  lemma AllowedIsEntitled(cfg: Config, db: Db, owners: map<string, Owner>, t: Trail)
    requires SignInOk(cfg, owners, t.sending.query, t.sending.signIn) && CanonicalLaw(cfg.lib)
    requires Admitted(cfg, db, t.sending.query, t.sending.fetched, t.sending.signIn)
    requires LoginAllowed(cfg, t.arrival.row, t.arrival.login.identity)
    requires var si, row := t.sending.signIn, t.arrival.row;
             row.me == si.me && row.backend == si.backend && row.backendState.owner == si.owner
    ensures Entitled(cfg, db, t, t.sending.signIn.me)
  {
    hide RequestedMe, HandleInUrl, ProfileByMe, CanonicalLaw, DiscoverIdentity, ManagedProfileForMe, QueryFits, AsksFor, Selected, PageBinds,
      LoginAllowed;
    var si := t.sending.signIn;
    ResolvedFrom(cfg, db, si.me, t.sending.fetched.page);
    LoginExactly(cfg, t.arrival.row, t.arrival.login.identity);
    match si.source
    case Static =>
      ProfileAt(cfg, t.sending.query, si.me);
      ConfiguredExactly(ProfileByMe(cfg, si.me).value);
    case Page =>
      DiscoveredBinds(cfg.lib, si.me, cfg.allowHttp, cfg.metadataName, cfg.publicUrl, cfg.IssuerOf(cfg.dynamicBackend), t.sending.fetched.page);
    case Managed(_) =>
  }

  /** A configured profile is found by its own URL. */
  lemma ProfileAt(cfg: Config, q: AuthorizeQuery, me: string)
    requires CanonicalLaw(cfg.lib) && RequestedMe(cfg, q) == Some(me) && ProfileByMe(cfg, me).Some?
    ensures ProfileByMe(cfg, me).value in cfg.profiles && ProfileByMe(cfg, me).value.me == me
  {
    hide CanonicalLaw, RequestedMe, CanonicalUrl, FindProfile;
    AskedIsCanonical(cfg, q);
  }

  /** Where a resolved profile comes from. */
  lemma ResolvedFrom(cfg: Config, db: Db, me: string, page: Option<string>)
    requires (hide *; ResolveProfile(cfg, db, me, page).Some?)
    ensures var si := ResolveProfile(cfg, db, me, page).value;
            match si.source
            case Static =>
              && si.owner == None
              && (!cfg.managedEnabled || HandleInUrl(cfg, me) == "" ==>
                    ProfileByMe(cfg, me).Some? && si.profile == ProfileObject(ProfileByMe(cfg, me).value))
            case Managed(handle) =>
              si.owner.Some? && exists k :: k in db.profiles && db.profiles[k].handle == handle && db.profiles[k].Holder() == si.owner.value
                                            && si.profile == StoredDoc(si.me, db.profiles[k])
            case Page =>
              si.owner.Some? && si.backend == cfg.dynamicBackend
              && DiscoverIdentity(cfg.lib, me, cfg.allowHttp, cfg.metadataName, cfg.publicUrl, cfg.IssuerOf(cfg.dynamicBackend), page)
                 == Some(Binding(si.me, si.owner.value.issuer, si.owner.value.subject))
  {
    hide HandleInUrl, ProfileByMe, DiscoverIdentity;
  }

  /** The same for a code answered with the profile at `POST /authorize`. */
  lemma AnswerProvenance(cfg: Config, states: seq<Sys>, events: seq<Event>, j: nat)
    returns (t: Trail, form: CodeForm)
    requires (hide Step, Advance, Admitted, QueryOk, SignInOk, MaySignIn, LoginAllowed; IsRun(cfg, states, events)) && j < |events| && Enabled(cfg, states[j], events[j])
    requires var r := ReplyOf(cfg, states[j], events[j]); r.Some? && r.value.ProfileAnswer?
    ensures TrailOk(cfg, states, events, t) && t.End() < j
    ensures events[j].Resume? && Began(cfg, states, events, j, events[j].pid, CodeProfile(form))
    ensures HashToken(cfg.lib, form.code) == HashToken(cfg.lib, t.Code())
    ensures var q, r := t.sending.query, ReplyOf(cfg, states[j], events[j]).value;
            && form.clientId == q.clientId && form.redirectUri == q.redirectUri
            && (q.challenge != "" ==> form.verifier != "" && cfg.lib.digest(form.verifier) == q.challenge)
            && r.me == t.sending.signIn.me && DocFits(t.arrival.row, t.arrival.login.identity, r.profile)
  {
    hide Advance, IsRun, Fresh, Inv, Ready, TrailOk, ConsumeAuthorizationCode;
    ResumeStep(cfg, states, events, j);
    var p, ch := states[j].procs[events[j].pid], events[j].choice;
    AnswerShape(cfg, states[j].shared, p, states[j].now, ch);
    form := p.request.form;
    StepInv(cfg, states, events, j, events[j].pid, ch, p);
    ConsumedCode(cfg, states[j], HashToken(cfg.lib, form.code));
    t := CodeTrail(cfg, states, events, j, HashToken(cfg.lib, form.code));
  }

  lemma AnswerShape(cfg: Config, s: Shared, p: Proc, now: int, ch: Choice)
    requires (hide *; var r := Advance(cfg, s, p, now, ch).reply; r.Some? && r.value.ProfileAnswer?)
    ensures p.Arrived? && p.request.CodeProfile?
    ensures var r := ConsumeAuthorizationCode(s.db, HashToken(cfg.lib, p.request.form.code), now).1;
            && r.Ok? && PresentationOk(cfg, r.value, p.request.form, false)
            && Advance(cfg, s, p, now, ch).reply == Some(ProfileAnswer(r.value.me, r.value.profile))
  {
    hide CheckAuthorize, ResolveProfile, RequestedMe, LoginAllowed, PresentationOk, EditOk, OpenSetup, ConsumeAuthorizationCode, CompleteAuth,
      NewProfile, ClaimedName, CreateManagedProfile;
  }

  // ---- The consent page and a denial ---------------------------------------------------------------

  lemma ConsentFormShape(cfg: Config, s: Shared, p: Proc, now: int, ch: Choice)
    requires (hide *; var r := Advance(cfg, s, p, now, ch).reply; r.Some? && r.value.ConsentForm?)
    ensures p.Arrived? && p.request.ConsentPage? && GetConsentRequest(s.db, p.request.id, now).Ok?
    ensures var row := GetConsentRequest(s.db, p.request.id, now).value;
            Advance(cfg, s, p, now, ch).reply
            == Some(ConsentForm(row.id, row.csrfToken, row.me, row.clientId, row.redirectUri, row.scope))
  {
    hide CheckAuthorize, ResolveProfile, RequestedMe, LoginAllowed, PresentationOk, EditOk, OpenSetup, GetConsentRequest, ConsumeAuthorizationCode,
      CompleteAuth, NewProfile, ClaimedName, CreateManagedProfile;
  }

  /** What a consent page shows is what its approval will grant: the original client, redirect URI, scope and profile URL. */
  lemma ConsentShows(cfg: Config, states: seq<Sys>, events: seq<Event>, j: nat) returns (s: Sending, l: Arrival)
    requires (hide Step, Advance, Admitted, QueryOk, SignInOk, MaySignIn, LoginAllowed; IsRun(cfg, states, events)) && j < |events| && Enabled(cfg, states[j], events[j])
    requires var r := ReplyOf(cfg, states[j], events[j]); r.Some? && r.value.ConsentForm?
    ensures Sent(cfg, states, events, s) && Taken(cfg, states, events, s, l) && l.taken < j
    ensures ReplyOf(cfg, states[j], events[j])
            == Some(ConsentForm(l.draw.a, l.draw.b, s.signIn.me, s.query.clientId, s.query.redirectUri, s.query.scope))
  {
    hide Advance, IsRun, Fresh, Inv, Ready, GetConsentRequest, Sent, Taken;
    ResumeStep(cfg, states, events, j);
    var p, ch := states[j].procs[events[j].pid], events[j].choice;
    ConsentFormShape(cfg, states[j].shared, p, states[j].now, ch);
    StepInv(cfg, states, events, j, events[j].pid, ch, p);
    ConsentRowKnown(cfg, states[j], p.request.id);
    s, l := ConsentOriginTrail(cfg, states, events, j, p.request.id);
  }

  lemma DenialShape(cfg: Config, s: Shared, p: Proc, now: int, ch: Choice)
    requires (hide *; var r := Advance(cfg, s, p, now, ch).reply; r.Some? && r.value.ToClientDenied?)
    ensures p.Matched? && p.decision != "approve" && Advance(cfg, s, p, now, ch).reply == Some(ToClientDenied(p.consent.redirectUri, p.consent.clientState))
    ensures Advance(cfg, s, p, now, ch).note == Nothing
  {
    hide CheckAuthorize, ResolveProfile, RequestedMe, LoginAllowed, PresentationOk, EditOk, OpenSetup, GetConsentRequest, ConsumeAuthorizationCode,
      CompleteAuth, NewProfile, ClaimedName, CreateManagedProfile;
  }

  /** A denial goes to the original redirect URI with the original state, and issues nothing. */
  lemma DenialGoesBack(cfg: Config, states: seq<Sys>, events: seq<Event>, j: nat) returns (s: Sending, l: Arrival)
    requires (hide Step, Advance, Admitted, QueryOk, SignInOk, MaySignIn, LoginAllowed; IsRun(cfg, states, events)) && j < |events| && Enabled(cfg, states[j], events[j])
    requires var r := ReplyOf(cfg, states[j], events[j]); r.Some? && r.value.ToClientDenied?
    ensures Sent(cfg, states, events, s) && Taken(cfg, states, events, s, l) && l.taken < j
    ensures ReplyOf(cfg, states[j], events[j]) == Some(ToClientDenied(s.query.redirectUri, s.query.state))
    ensures states[j + 1].hist == states[j].hist
  {
    hide Advance, IsRun, Fresh, Inv, Ready, Sent, Taken;
    ResumeStep(cfg, states, events, j);
    var p, ch := states[j].procs[events[j].pid], events[j].choice;
    DenialShape(cfg, states[j].shared, p, states[j].now, ch);
    StepInv(cfg, states, events, j, events[j].pid, ch, p);
    s, l := ConsentOriginTrail(cfg, states, events, j, p.consent.id);
  }
}
